/**
 * Postcode normalisation: the text typed into the postcode field is
 * upper-cased and every space character is deleted before it is used.
 * Only ASCII letters are case-mapped; every other character is kept as is.
 */
module Postcode {

  predicate IsLower(c: char) { 'a' <= c <= 'z' }

  /** Upper-case one character: ASCII 'a'..'z' become 'A'..'Z'. */
  function Upper(c: char): (u: char)
    ensures !IsLower(u)
    ensures u == ' ' <==> c == ' '
    ensures IsLower(c) ==> u as int == c as int - 32
    ensures !IsLower(c) ==> u == c
  {
    if IsLower(c) then (c as int - 32) as char else c
  }

  /** The upper-casing step, applied to every character of `s`. */
  function UpperAll(s: string): (r: string)
    ensures |r| == |s|
    ensures forall i :: 0 <= i < |s| ==> r[i] == Upper(s[i])
  {
    if s == [] then [] else [Upper(s[0])] + UpperAll(s[1..])
  }

  /** The space-deleting step: every ' ' goes, every other character stays. */
  function RemoveSpaces(s: string): (r: string)
    ensures multiset(r) == multiset(s)[' ' := 0]
    ensures |r| <= |s|
    ensures forall i :: 0 <= i < |r| ==> r[i] in s
  {
    if s == [] then []
    else
      assert s == [s[0]] + s[1..];
      if s[0] == ' ' then RemoveSpaces(s[1..])
      else [s[0]] + RemoveSpaces(s[1..])
  }

  /** The postcode as the form uses it: upper-cased, then spaces deleted. */
  function Normalize(s: string): (r: string)
    ensures ' ' !in r
    ensures forall i :: 0 <= i < |r| ==> !IsLower(r[i])
    ensures |r| <= |s|
  {
    var u := UpperAll(s);
    var r := RemoveSpaces(u);
    assert multiset(r)[' '] == 0;
    r
  }

  /** Deleting spaces distributes over concatenation. */
  lemma {:induction false} RemoveSpacesAppend(a: string, b: string)
    ensures RemoveSpaces(a + b) == RemoveSpaces(a) + RemoveSpaces(b)
  {
    if a == [] {
      assert a + b == b;
    } else {
      assert (a + b)[0] == a[0];
      assert (a + b)[1..] == a[1..] + b;
      RemoveSpacesAppend(a[1..], b);
    }
  }

  /** Upper-casing distributes over concatenation. */
  lemma UpperAllAppend(a: string, b: string)
    ensures UpperAll(a + b) == UpperAll(a) + UpperAll(b)
  {
  }

  /** Normalisation distributes over concatenation. */
  lemma NormalizeAppend(a: string, b: string)
    ensures Normalize(a + b) == Normalize(a) + Normalize(b)
  {
    UpperAllAppend(a, b);
    RemoveSpacesAppend(UpperAll(a), UpperAll(b));
  }

  /** A string without spaces is left alone by the space-deleting step. */
  lemma {:induction false} RemoveSpacesFixed(s: string)
    requires ' ' !in s
    ensures RemoveSpaces(s) == s
  {
    if s != [] {
      assert s[0] != ' ';
      assert ' ' !in s[1..];
      RemoveSpacesFixed(s[1..]);
    }
  }

  /** A string without lower-case letters is left alone by the upper-casing step. */
  lemma UpperAllFixed(s: string)
    requires forall i :: 0 <= i < |s| ==> !IsLower(s[i])
    ensures UpperAll(s) == s
  {
  }

  /** Normalising an already normalised postcode changes nothing. */
  lemma NormalizeIdempotent(s: string)
    ensures Normalize(Normalize(s)) == Normalize(s)
  {
    var n := Normalize(s);
    UpperAllFixed(n);
    RemoveSpacesFixed(n);
  }

  /** The two steps commute: deleting spaces first and upper-casing after gives the same postcode. */
  lemma {:induction false} NormalizeCommutes(s: string)
    ensures Normalize(s) == UpperAll(RemoveSpaces(s))
  {
    if s != [] {
      var u := UpperAll(s);
      assert u[0] == Upper(s[0]) && u[1..] == UpperAll(s[1..]);
      NormalizeCommutes(s[1..]);
      if s[0] != ' ' {
        UpperAllAppend([s[0]], RemoveSpaces(s[1..]));
      }
    }
  }

  /** A space typed anywhere in the postcode makes no difference. */
  lemma IgnoresSpace(a: string, b: string)
    ensures Normalize(a + [' '] + b) == Normalize(a + b)
  {
    NormalizeAppend(a + [' '], b);
    NormalizeAppend(a, [' ']);
    NormalizeAppend(a, b);
  }

  /** The case in which a letter is typed makes no difference. */
  lemma IgnoresCase(a: string, c: char, b: string)
    ensures Normalize(a + [c] + b) == Normalize(a + [Upper(c)] + b)
  {
    NormalizeAppend(a + [c], b);
    NormalizeAppend(a, [c]);
    NormalizeAppend(a + [Upper(c)], b);
    NormalizeAppend(a, [Upper(c)]);
  }
}
