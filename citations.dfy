/**
 * The source-citation formatter `create_sources_string`, identical in app.py
 * and main.py: a set of source URLs becomes either the empty string or a
 * `sources:` header followed by the URLs in ascending order, one numbered line
 * each, joined by newlines.
 */
module Citations {
  import opened Wrappers

  /** The length of the longest common prefix of `a` and `b`. */
  function CommonPrefixLength(a: string, b: string): (k: nat)
    ensures k <= |a| && k <= |b| && a[..k] == b[..k]
    ensures k < |a| && k < |b| ==> a[k] != b[k]
    decreases |a|
  {
    if a == [] || b == [] || a[0] != b[0] then 0
    else
      var k' := CommonPrefixLength(a[1..], b[1..]);
      assert a[..k' + 1] == [a[0]] + a[1..][..k'] && b[..k' + 1] == [b[0]] + b[1..][..k'];
      k' + 1
  }

  /**
   * Python's `a < b` on `str`: `a` is a proper prefix of `b`, or at the first
   * position where they differ `a` has the smaller code point.
   */
  predicate Below(a: string, b: string)
    ensures Below(a, b) <==>
      var k := CommonPrefixLength(a, b);
      (k == |a| && k < |b|) || (k < |a| && k < |b| && a[k] < b[k])
    decreases |a|
  {
    if a == [] then b != []
    else if b == [] then false
    else a[0] < b[0] || (a[0] == b[0] && Below(a[1..], b[1..]))
  }

  lemma {:induction false} BelowIrreflexive(a: string)
    ensures !Below(a, a)
    decreases |a|
  {
    if a != [] { BelowIrreflexive(a[1..]); }
  }

  lemma {:induction false} BelowTransitive(a: string, b: string, c: string)
    requires Below(a, b) && Below(b, c)
    ensures Below(a, c)
    decreases |a|
  {
    if a != [] && b != [] && c != [] && a[0] == b[0] == c[0] {
      BelowTransitive(a[1..], b[1..], c[1..]);
    }
  }

  lemma {:induction false} BelowTotal(a: string, b: string)
    ensures a == b || Below(a, b) || Below(b, a)
    decreases |a|
  {
    if a != [] && b != [] && a[0] == b[0] {
      BelowTotal(a[1..], b[1..]);
      if a[1..] == b[1..] {
        assert a == [a[0]] + a[1..] && b == [b[0]] + b[1..];
      }
    }
  }

  lemma BelowAsymmetric(a: string, b: string)
    requires Below(a, b)
    ensures !Below(b, a)
  {  }

  /** `m` is the smallest element of `s`. */
  predicate IsLeast(m: string, s: set<string>)
  {
    m in s && forall y :: y in s && y != m ==> Below(m, y)
  }

  lemma {:induction false} LeastExists(s: set<string>)
    requires s != {}
    ensures exists m :: IsLeast(m, s)
    decreases |s|
  {
    var x :| x in s;
    var rest := s - {x};
    if rest == {} {
      assert s == {x};
      assert IsLeast(x, s);
    } else {
      LeastExists(rest);
      var m :| IsLeast(m, rest);
      BelowTotal(x, m);
      if Below(x, m) {
        forall y | y in s && y != x ensures Below(x, y) {
          if y != m { BelowTransitive(x, m, y); }
        }
        assert IsLeast(x, s);
      } else {
        assert IsLeast(m, s);
      }
    }
  }

  lemma LeastUnique(s: set<string>)
    ensures forall a, b :: IsLeast(a, s) && IsLeast(b, s) ==> a == b
  {
    forall a, b | IsLeast(a, s) && IsLeast(b, s) ensures a == b {
      if a != b { BelowAsymmetric(a, b); }
    }
  }

  /** The smallest element of a non-empty set. */
  function Least(s: set<string>): (m: string)
    requires s != {}
    ensures IsLeast(m, s)
  {
    LeastExists(s);
    LeastUnique(s);
    var m :| IsLeast(m, s); m
  }

  predicate StrictlySorted(xs: seq<string>)
  {
    forall i, j :: 0 <= i < j < |xs| ==> Below(xs[i], xs[j])
  }

  /** Python's `sorted(s)` for a set of strings. */
  function SortedList(s: set<string>): (r: seq<string>)
    ensures StrictlySorted(r)
    ensures forall x :: x in r <==> x in s
    ensures |r| == |s|
    decreases |s|
  {
    if s == {} then []
    else
      var m := Least(s);
      var rest := SortedList(s - {m});
      assert forall k :: 0 <= k < |rest| ==> rest[k] in s - {m};
      [m] + rest
  }

  /** The head of a strictly ascending listing of `s` is the least element of `s`. */
  lemma HeadIsLeast(xs: seq<string>, s: set<string>)
    requires xs != [] && StrictlySorted(xs)
    requires forall x :: x in xs <==> x in s
    ensures IsLeast(xs[0], s)
  {
    forall y | y in s && y != xs[0] ensures Below(xs[0], y) {
      var j :| 0 <= j < |xs| && xs[j] == y;
    }
  }

  /** The tail of a strictly ascending listing of `s` lists `s` without its head. */
  lemma TailLists(xs: seq<string>, s: set<string>)
    requires xs != [] && StrictlySorted(xs)
    requires forall x :: x in xs <==> x in s
    ensures StrictlySorted(xs[1..])
    ensures forall x :: x in xs[1..] <==> x in s - {xs[0]}
  {
    forall x ensures x in xs[1..] <==> x in s - {xs[0]} {
      if x in xs[1..] {
        var j :| 1 <= j < |xs| && xs[j] == x;
        BelowIrreflexive(x);
      }
      if x in s - {xs[0]} {
        var j :| 0 <= j < |xs| && xs[j] == x;
        assert xs[1..][j - 1] == x;
      }
    }
  }

  /** `sorted(s)` is the only strictly ascending listing of `s`. */
  lemma {:induction false} SortedListUnique(xs: seq<string>, s: set<string>)
    requires StrictlySorted(xs)
    requires forall x :: x in xs <==> x in s
    ensures xs == SortedList(s)
    decreases |xs|
  {
    if xs == [] {
      assert s == {};
    } else {
      HeadIsLeast(xs, s);
      LeastUnique(s);
      var m := Least(s);
      assert m == xs[0];
      TailLists(xs, s);
      SortedListUnique(xs[1..], s - {m});
      assert SortedList(s) == [m] + SortedList(s - {m});
      assert xs == [xs[0]] + xs[1..];
    }
  }

  /** The decimal digit for `d`. */
  function DigitChar(d: nat): (c: char)
    requires d < 10
    ensures '0' <= c <= '9' && c as int - '0' as int == d
  {
    "0123456789"[d]
  }

  predicate IsDigits(s: string)
  {
    forall i :: 0 <= i < |s| ==> IsDigit(s[i])
  }

  /** The number a string of decimal digits denotes. */
  function DecimalValue(s: string): nat
    requires IsDigits(s)
  {
    if s == [] then 0 else 10 * DecimalValue(s[..|s| - 1]) + (s[|s| - 1] as int - '0' as int)
  }

  /** Python's `f"{n}"` for a natural number: its decimal digits. */
  function NatToString(n: nat): (r: string)
    ensures |r| >= 1 && IsDigits(r)
    ensures DecimalValue(r) == n
    ensures r[0] == '0' ==> n == 0
    decreases n
  {
    if n < 10 then [DigitChar(n)]
    else
      var prefix := NatToString(n / 10);
      var r := prefix + [DigitChar(n % 10)];
      assert r[..|r| - 1] == prefix;
      r
  }

  predicate IsDigit(c: char)
  {
    '0' <= c <= '9'
  }

  /** The number of decimal digits at the start of `s`. */
  function LeadingDigits(s: string): (k: nat)
    ensures k <= |s| && IsDigits(s[..k])
    ensures k < |s| ==> !IsDigit(s[k])
    decreases |s|
  {
    if s == [] || !IsDigit(s[0]) then 0
    else
      var k' := LeadingDigits(s[1..]);
      assert s[..k' + 1] == [s[0]] + s[1..][..k'];
      k' + 1
  }

  lemma {:induction false} LeadingDigitsOf(num: string, rest: string)
    requires IsDigits(num)
    requires rest != [] && !IsDigit(rest[0])
    ensures LeadingDigits(num + rest) == |num|
    decreases |num|
  {
    var s := num + rest;
    if num == [] {
      assert s == rest;
    } else {
      assert s[0] == num[0] && IsDigit(s[0]);
      assert s[1..] == num[1..] + rest;
      assert IsDigits(num[1..]) by {
        forall i | 0 <= i < |num[1..]| ensures IsDigit(num[1..][i]) {
          assert num[1..][i] == num[i + 1];
        }
      }
      LeadingDigitsOf(num[1..], rest);
      assert LeadingDigits(s) == LeadingDigits(s[1..]) + 1;
    }
  }

  /** Reads a line `"{n}. {src}"` back into its number and its URL. */
  function ParseNumberedLine(line: string): Option<(nat, string)>
  {
    var k := LeadingDigits(line);
    if 0 < k && k + 2 <= |line| && line[k..k + 2] == ". " then
      Some((DecimalValue(line[..k]), line[k + 2..]))
    else None
  }

  /** The line `f"{i+1}. {src}"` for the URL at 0-based position `i`; it reads back as `(i + 1, src)`. */
  function NumberedLine(i: nat, src: string): (r: string)
    ensures ParseNumberedLine(r) == Some((i + 1, src))
  {
    var num := NatToString(i + 1);
    var r := num + ". " + src;
    LeadingDigitsOf(num, ". " + src);
    assert num + ". " + src == num + (". " + src);
    assert r[..|num|] == num && r[|num|..|num| + 2] == ". " && r[|num| + 2..] == src;
    r
  }

  /** The numbered lines of an ordered listing, one per element. */
  function NumberedLines(xs: seq<string>): (r: seq<string>)
    ensures |r| == |xs|
    ensures forall i :: 0 <= i < |xs| ==> r[i] == NumberedLine(i, xs[i])
  {
    seq(|xs|, i requires 0 <= i < |xs| => NumberedLine(i, xs[i]))
  }

  /** Python's `sep.join(parts)`. */
  function Join(sep: string, parts: seq<string>): (r: string)
    ensures |parts| == 0 ==> r == ""
    ensures |parts| == 1 ==> r == parts[0]
    ensures |parts| >= 1 ==> |parts[0]| <= |r| && r[..|parts[0]|] == parts[0]
    decreases |parts|
  {
    if |parts| == 0 then ""
    else if |parts| == 1 then parts[0]
    else parts[0] + sep + Join(sep, parts[1..])
  }

  /** A joined string ends with the last part. */
  lemma {:induction false} JoinEndsWithLast(sep: string, parts: seq<string>)
    requires |parts| >= 1
    ensures var r := Join(sep, parts); var last := parts[|parts| - 1];
      |last| <= |r| && r[|r| - |last|..] == last
    decreases |parts|
  {
    if |parts| > 1 {
      JoinEndsWithLast(sep, parts[1..]);
      var rest := Join(sep, parts[1..]);
      var r := parts[0] + sep + rest;
      assert r[|r| - |rest|..] == rest;
    }
  }

  /** Python's `s.split(c)` for a single-character separator. */
  function Split(s: string, c: char): (r: seq<string>)
    ensures |r| >= 1
    decreases |s|
  {
    if s == [] then [""]
    else
      var rest := Split(s[1..], c);
      if s[0] == c then [""] + rest else [[s[0]] + rest[0]] + rest[1..]
  }

  lemma {:induction false} SplitAround(x: string, c: char, y: string)
    ensures Split(x + [c] + y, c) == Split(x, c) + Split(y, c)
    decreases |x|
  {
    if x == [] {
      assert x + [c] + y == [c] + y;
      assert ([c] + y)[1..] == y;
    } else {
      assert (x + [c] + y)[1..] == x[1..] + [c] + y;
      SplitAround(x[1..], c, y);
    }
  }

  lemma {:induction false} SplitWithout(x: string, c: char)
    requires c !in x
    ensures Split(x, c) == [x]
    decreases |x|
  {
    if x != [] {
      SplitWithout(x[1..], c);
      assert x == [x[0]] + x[1..];
    }
  }

  /** Splitting a join on its separator gives the parts back. */
  lemma {:induction false} SplitJoin(parts: seq<string>, c: char)
    requires |parts| >= 1
    requires forall i :: 0 <= i < |parts| ==> c !in parts[i]
    ensures Split(Join([c], parts), c) == parts
    decreases |parts|
  {
    SplitWithout(parts[0], c);
    if |parts| > 1 {
      SplitJoin(parts[1..], c);
      SplitAround(parts[0], c, Join([c], parts[1..]));
      assert parts == [parts[0]] + parts[1..];
    }
  }

  /** The header line, without its newline. */
  const HeaderLine: string := "sources:"
  const Header: string := HeaderLine + "\n"

  /** The header followed by the lines joined with newlines. */
  function Listing(lines: seq<string>): string
  {
    Header + Join("\n", lines)
  }

  /** `create_sources_string(source_urls)`. */
  function CreateSourcesString(sourceUrls: set<string>): (r: string)
    ensures r == "" <==> sourceUrls == {}
    ensures sourceUrls != {} ==> |Header| < |r| && r[..|Header|] == Header
  {
    if sourceUrls == {} then ""
    else Listing(NumberedLines(SortedList(sourceUrls)))
  }

  predicate NoNewlines(urls: set<string>)
  {
    forall u :: u in urls ==> '\n' !in u
  }

  /** No numbered line of a newline-free listing contains a newline. */
  lemma NumberedLinesNoNewline(xs: seq<string>)
    requires forall i :: 0 <= i < |xs| ==> '\n' !in xs[i]
    ensures forall i :: 0 <= i < |xs| ==> '\n' !in NumberedLines(xs)[i]
  {  }

  /** A header line joined in front of newline-free lines splits back apart. */
  lemma SplitHeaderedJoin(lines: seq<string>)
    requires |lines| >= 1
    requires forall i :: 0 <= i < |lines| ==> '\n' !in lines[i]
    ensures Split(Listing(lines), '\n') == [HeaderLine] + lines
  {
    var body := Join("\n", lines);
    SplitJoin(lines, '\n');
    assert '\n' !in HeaderLine;
    SplitWithout(HeaderLine, '\n');
    SplitAround(HeaderLine, '\n', body);
  }

  /**
   * Read back line by line, a non-empty listing is the header line and then
   * exactly one numbered line per distinct URL, in ascending order.
   */
  lemma ListingLines(sourceUrls: set<string>)
    requires sourceUrls != {}
    requires NoNewlines(sourceUrls)
    ensures Split(CreateSourcesString(sourceUrls), '\n')
         == [HeaderLine] + NumberedLines(SortedList(sourceUrls))
  {
    var sorted := SortedList(sourceUrls);
    assert forall i :: 0 <= i < |sorted| ==> sorted[i] in sourceUrls;
    NumberedLinesNoNewline(sorted);
    var lines := NumberedLines(sorted);
    SplitHeaderedJoin(lines);
  }

  /** The listing has one numbered line per distinct URL. */
  lemma ListingLineCount(sourceUrls: set<string>)
    requires sourceUrls != {}
    requires NoNewlines(sourceUrls)
    ensures |Split(CreateSourcesString(sourceUrls), '\n')| == 1 + |sourceUrls|
  {
    ListingLines(sourceUrls);
    var lines := NumberedLines(SortedList(sourceUrls));
    assert |[HeaderLine] + lines| == 1 + |sourceUrls|;
  }

  /** A non-empty listing never ends with a newline. */
  lemma NoTrailingNewline(sourceUrls: set<string>)
    requires sourceUrls != {}
    requires NoNewlines(sourceUrls)
    ensures var r := CreateSourcesString(sourceUrls); r[|r| - 1] != '\n'
  {
    var sorted := SortedList(sourceUrls);
    var lines := NumberedLines(sorted);
    var n := |lines| - 1;
    var last := lines[n];
    var j := Join("\n", lines);
    var r := Header + j;
    JoinEndsWithLast("\n", lines);
    assert r[|r| - 1] == j[|j| - 1] == last[|last| - 1];
    assert sorted[n] in sourceUrls;
    if sorted[n] == [] {
      assert last[|last| - 1] == ' ';
    } else {
      assert last[|last| - 1] == sorted[n][|sorted[n]| - 1];
    }
  }

  lemma FirstTwoLines(u: string, v: string)
    ensures NumberedLines([u, v]) == ["1. " + u, "2. " + v]
  {
    assert NatToString(1) == "1" && NatToString(2) == "2";
    assert NumberedLine(0, u) == "1. " + u && NumberedLine(1, v) == "2. " + v;
  }

  lemma JoinTwo(sep: string, x: string, y: string)
    ensures Join(sep, [x, y]) == x + sep + y
  {
    assert [x, y][1..] == [y];
  }

  lemma TwoSourcesLines(u: string, v: string)
    requires Below(u, v)
    ensures CreateSourcesString({v, u}) == Listing(["1. " + u, "2. " + v])
  {
    SortedListUnique([u, v], {v, u});
    FirstTwoLines(u, v);
  }

  lemma ListingOfTwo(x: string, y: string)
    ensures Listing([x, y]) == "sources:\n" + x + "\n" + y
  {
    JoinTwo("\n", x, y);
  }

  /**
   * Two URLs are listed smaller first, numbered 1 and 2, whatever order the
   * set was written in: `{"b", "a"}` gives `"sources:\n1. a\n2. b"`.
   */
  lemma TwoSources(u: string, v: string)
    requires Below(u, v)
    ensures CreateSourcesString({v, u}) == "sources:\n" + ("1. " + u) + "\n" + ("2. " + v)
  {
    TwoSourcesLines(u, v);
    ListingOfTwo("1. " + u, "2. " + v);
  }
}
