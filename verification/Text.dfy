/** The string operations the daemon relies on: trimming, byte-wise ordering and sorting. */
module Text {

  /** Unicode white space. */
  predicate IsSpace(c: char) {
    c in {' ', '\t', '\n', '\U{000B}', '\U{000C}', '\r', '\U{0085}', '\U{00A0}', '\U{1680}',
          '\U{2028}', '\U{2029}', '\U{202F}', '\U{205F}', '\U{3000}'}
    || '\U{2000}' <= c <= '\U{200A}'
  }

  function TrimLeft(s: string): (t: string)
    ensures |t| <= |s|
    ensures t != "" ==> !IsSpace(t[0])
  {
    if s == "" then ""
    else if IsSpace(s[0]) then TrimLeft(s[1..]) else s
  }

  function TrimRight(s: string): (t: string)
    ensures t <= s
    ensures t != "" ==> !IsSpace(t[|t| - 1])
  {
    if s == "" then ""
    else if IsSpace(s[|s| - 1]) then TrimRight(s[..|s| - 1]) else s
  }

  function Trim(s: string): (t: string)
    ensures t != "" ==> !IsSpace(t[0]) && !IsSpace(t[|t| - 1])
  {
    TrimRight(TrimLeft(s))
  }

  predicate Blank(s: string) {
    Trim(s) == ""
  }

  lemma TrimFixed(s: string)
    requires s == "" || (!IsSpace(s[0]) && !IsSpace(s[|s| - 1]))
    ensures Trim(s) == s
  {
  }

  lemma TrimIdempotent(s: string)
    ensures Trim(Trim(s)) == Trim(s)
  {
    TrimFixed(Trim(s));
  }

  lemma {:induction false} TrimRightKeepsHead(s: string)
    requires s != "" && !IsSpace(s[0])
    ensures TrimRight(s) != "" && TrimRight(s)[0] == s[0]
  {
    if |s| > 1 && IsSpace(s[|s| - 1]) {
      TrimRightKeepsHead(s[..|s| - 1]);
    }
  }

  lemma NotBlank(s: string)
    requires s != "" && !IsSpace(s[0])
    ensures !Blank(s)
  {
    TrimRightKeepsHead(s);
  }

  /** Byte-wise lexicographic order, `<` on strings in the daemon's language. */
  predicate Less(a: string, b: string) {
    b != "" && (a == "" || a[0] < b[0] || (a[0] == b[0] && Less(a[1..], b[1..])))
  }

  lemma {:induction false} LessTrichotomy(a: string, b: string)
    ensures Less(a, b) || a == b || Less(b, a)
    ensures !(Less(a, b) && Less(b, a))
    ensures a == b ==> !Less(a, b)
  {
    if a != "" && b != "" && a[0] == b[0] {
      LessTrichotomy(a[1..], b[1..]);
      assert a == [a[0]] + a[1..] && b == [b[0]] + b[1..];
    }
  }

  lemma {:induction false} LessTransitive(a: string, b: string, c: string)
    requires Less(a, b) && Less(b, c)
    ensures Less(a, c)
  {
    if a != "" && a[0] == b[0] == c[0] {
      LessTransitive(a[1..], b[1..], c[1..]);
    }
  }

  function Insert(s: string, sorted: seq<string>): seq<string> {
    if sorted == [] || !Less(sorted[0], s) then [s] + sorted
    else [sorted[0]] + Insert(s, sorted[1..])
  }

  function SortStrings(xs: seq<string>): seq<string> {
    if xs == [] then [] else Insert(xs[0], SortStrings(xs[1..]))
  }

  predicate Sorted(xs: seq<string>) {
    |xs| <= 1 || (!Less(xs[1], xs[0]) && Sorted(xs[1..]))
  }

  lemma {:induction false} InsertSorted(s: string, sorted: seq<string>)
    requires Sorted(sorted)
    ensures Sorted(Insert(s, sorted))
  {
    if sorted != [] {
      LessTrichotomy(sorted[0], s);
      if Less(sorted[0], s) {
        InsertSorted(s, sorted[1..]);
        assert Insert(s, sorted)[1..] == Insert(s, sorted[1..]);
        assert Insert(s, sorted[1..])[0] in {s, if |sorted| > 1 then sorted[1] else s};
      } else {
        assert Insert(s, sorted)[1..] == sorted;
      }
    }
  }

  lemma {:induction false} SortIsSorted(xs: seq<string>)
    ensures Sorted(SortStrings(xs))
  {
    if xs != [] {
      SortIsSorted(xs[1..]);
      InsertSorted(xs[0], SortStrings(xs[1..]));
    }
  }

  lemma {:induction false} SortFixed(xs: seq<string>)
    requires Sorted(xs)
    ensures SortStrings(xs) == xs
  {
    if xs != [] {
      SortFixed(xs[1..]);
    }
  }

  /** Sorting twice is sorting once. */
  lemma SortIdempotent(xs: seq<string>)
    ensures SortStrings(SortStrings(xs)) == SortStrings(xs)
  {
    SortIsSorted(xs);
    SortFixed(SortStrings(xs));
  }

  lemma SortsOne(x: string)
    ensures SortStrings([x]) == [x]
  {
    assert [x][1..] == [];
  }
}
