/** The recipient loader, `load_recipients`: CSV rows (already parsed into
    column-to-cell maps) become subscriber records, unsubscribed rows dropped. */
module Loader {
  import opened Strings
  import opened Lists

  /** One CSV row as the dictionary reader yields it: header name to cell. */
  type Row = map<string, string>

  datatype Subscriber = Subscriber(email: string, name: string, company: string)

  /** Python's `row.get(key, default)`: the default stands in only for a
      column that is absent; a present but empty cell yields "". */
  function Get(row: Row, key: string, default: string): string {
    if key in row then row[key] else default
  }

  /** The lower-cased `subscribed` values that keep a row. */
  const Truthy: seq<string> := ["yes", "y", "1", "true"]

  predicate IsSubscribed(row: Row) {
    Lower(Get(row, "subscribed", "yes")) in Truthy
  }

  /** The record built for a kept row: stripped e-mail, name and company with
      their defaults. */
  function ToSubscriber(row: Row): Subscriber {
    Subscriber(Strip(Get(row, "email", "")), Get(row, "name", "there"),
               Get(row, "company", "your company"))
  }

  /** The recipients of a sequence of rows, in row order. */
  function Subscribers(rows: seq<Row>): seq<Subscriber> {
    FilterMap(rows, IsSubscribed, ToSubscriber)
  }

  /** The loop of `load_recipients`: append the record of every kept row. */
  method LoadRecipients(rows: seq<Row>) returns (recipients: seq<Subscriber>)
    ensures recipients == Subscribers(rows)
  {
    recipients := [];
    var i := 0;
    while i < |rows|
      invariant 0 <= i <= |rows|
      invariant recipients == Subscribers(rows[..i])
    {
      TakeSnoc(rows, i);
      FilterMapAppend(rows[..i], [rows[i]], IsSubscribed, ToSubscriber);
      FilterMapSingle(rows[i], IsSubscribed, ToSubscriber);
      if IsSubscribed(rows[i]) {
        recipients := recipients + [ToSubscriber(rows[i])];
      } else {
        EmptyAppend([], recipients);
      }
      i := i + 1;
    }
    TakeAll(rows);
  }

  /** The loaded records keep the order of their rows: loading a
      concatenation concatenates the results. */
  lemma SubscribersAppend(a: seq<Row>, b: seq<Row>)
    ensures Subscribers(a + b) == Subscribers(a) + Subscribers(b)
  {
    FilterMapAppend(a, b, IsSubscribed, ToSubscriber);
  }

  /** A kept row `i` yields its record at the position given by the number of
      records produced by the rows before it. */
  lemma SubscriberPosition(rows: seq<Row>, i: nat)
    requires i < |rows| && IsSubscribed(rows[i])
    ensures |Subscribers(rows[..i])| < |Subscribers(rows)|
    ensures Subscribers(rows)[|Subscribers(rows[..i])|] == ToSubscriber(rows[i])
  {
    FilterMapAt(rows, i, IsSubscribed, ToSubscriber);
  }

  /** A dropped row contributes nothing. */
  lemma SubscriberDropped(rows: seq<Row>, i: nat)
    requires i < |rows| && !IsSubscribed(rows[i])
    ensures Subscribers(rows) == Subscribers(rows[..i]) + Subscribers(rows[i + 1..])
  {
    FilterMapAt(rows, i, IsSubscribed, ToSubscriber);
  }

  /** A record is in the output iff some kept row yields it. */
  lemma SubscribersMembership(rows: seq<Row>, s: Subscriber)
    ensures s in Subscribers(rows) <==>
            exists i :: 0 <= i < |rows| && IsSubscribed(rows[i]) && ToSubscriber(rows[i]) == s
  {
    FilterMapMembership(rows, IsSubscribed, ToSubscriber, s);
  }

  /** A row is kept exactly when its `subscribed` column is absent or spells
      one of yes, y, 1, true in any mixture of cases. */
  lemma IsSubscribedIff(row: Row)
    ensures IsSubscribed(row) <==>
            "subscribed" !in row
            || EqualsIgnoringCase(row["subscribed"], "yes")
            || EqualsIgnoringCase(row["subscribed"], "y")
            || EqualsIgnoringCase(row["subscribed"], "1")
            || EqualsIgnoringCase(row["subscribed"], "true")
  {
    var v := Get(row, "subscribed", "yes");
    LowerEqualsIff(v, "yes");
    LowerEqualsIff(v, "y");
    LowerEqualsIff(v, "1");
    LowerEqualsIff(v, "true");
  }

  /** A missing `subscribed` column keeps the row. */
  lemma MissingSubscribedKept(row: Row)
    requires "subscribed" !in row
    ensures IsSubscribed(row)
  {
    assert Lower("yes") == "yes";
  }

  /** A present but empty `subscribed` cell drops the row: the default
      applies only to an absent column. */
  lemma EmptySubscribedDropped(row: Row)
    requires "subscribed" in row && row["subscribed"] == ""
    ensures !IsSubscribed(row)
  {
    assert Lower("") == "";
  }

  /** `subscribed=no` drops the row. */
  lemma NoSubscribedDropped(row: Row)
    requires "subscribed" in row && row["subscribed"] == "no"
    ensures !IsSubscribed(row)
  {
    assert Lower("no") == "no";
  }

  /** The record of a row: a present cell, even an empty one, is used as it
      is; `name` and `company` fall back to "there" and "your company" only
      when their column is absent; the e-mail is stripped. */
  lemma ToSubscriberFields(row: Row)
    ensures ("name" in row ==> ToSubscriber(row).name == row["name"])
            && ("name" !in row ==> ToSubscriber(row).name == "there")
    ensures ("company" in row ==> ToSubscriber(row).company == row["company"])
            && ("company" !in row ==> ToSubscriber(row).company == "your company")
    ensures "email" !in row ==> ToSubscriber(row).email == ""
    ensures "email" in row ==> ToSubscriber(row).email == Strip(row["email"])
  {
  }
}
