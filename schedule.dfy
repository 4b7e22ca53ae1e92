/**
 * Schedule resolution: the normalised postcode is looked up, by exact
 * equality, in the delivery-schedule table (rows of Postcode and Sched).
 * The first matching row gives the schedule code; an empty postcode is not
 * looked up at all.
 */
module Schedule {
  import opened Postcode

  /** One row of the delivery-schedule table. */
  datatype Row = Row(postcode: string, sched: string)

  /** What the form learns about the postcode in one run of the page. */
  datatype Resolution =
    | NoPostcode            // nothing typed: the page asks for a postcode
    | NotFound              // typed, but no row has it: an error is shown
    | Found(sched: string)  // the schedule of the first matching row

  /** The rows whose Postcode equals `p` exactly, in table order (the filtered frame). */
  function MatchedRows(table: seq<Row>, p: string): (m: seq<Row>)
    ensures forall k :: 0 <= k < |m| ==> m[k].postcode == p && m[k] in table
    ensures forall i :: 0 <= i < |table| && table[i].postcode == p ==> table[i] in m
  {
    if table == [] then []
    else if table[0].postcode == p then [table[0]] + MatchedRows(table[1..], p)
    else MatchedRows(table[1..], p)
  }

  /** Row `i` is the first row of `table` whose Postcode is `p`. */
  predicate IsFirstMatch(table: seq<Row>, p: string, i: int)
  {
    0 <= i < |table| && table[i].postcode == p &&
    forall j :: 0 <= j < i ==> table[j].postcode != p
  }

  /** The head of the filtered rows is the table's first matching row. */
  lemma {:induction false} MatchedRowsHead(table: seq<Row>, p: string, i: int)
    requires IsFirstMatch(table, p, i)
    ensures MatchedRows(table, p) != [] && MatchedRows(table, p)[0] == table[i]
  {
    if i > 0 {
      assert table[0].postcode != p;
      assert IsFirstMatch(table[1..], p, i - 1);
      MatchedRowsHead(table[1..], p, i - 1);
    }
  }

  /** Resolve what was typed into the postcode field against the table. */
  function Resolve(table: seq<Row>, entered: string): (r: Resolution)
    ensures r.NoPostcode? <==> Normalize(entered) == []
    ensures r.NotFound? <==>
      Normalize(entered) != [] &&
      forall i :: 0 <= i < |table| ==> table[i].postcode != Normalize(entered)
    ensures r.Found? ==>
      exists i :: 0 <= i < |table| && table[i].postcode == Normalize(entered) && table[i].sched == r.sched
  {
    var p := Normalize(entered);
    if p == [] then NoPostcode
    else
      var m := MatchedRows(table, p);
      if m == [] then NotFound else Found(m[0].sched)
  }

  /** A found postcode resolves to the schedule of its first row, whatever later rows say. */
  lemma ResolveFirstMatch(table: seq<Row>, entered: string, i: int)
    requires Normalize(entered) != []
    requires IsFirstMatch(table, Normalize(entered), i)
    ensures Resolve(table, entered) == Found(table[i].sched)
  {
    MatchedRowsHead(table, Normalize(entered), i);
  }

  /** Two entries that normalise alike resolve alike: case and spaces do not matter. */
  lemma ResolveIgnoresCaseAndSpaces(table: seq<Row>, a: string, b: string)
    requires Normalize(a) == Normalize(b)
    ensures Resolve(table, a) == Resolve(table, b)
  {
  }
}
