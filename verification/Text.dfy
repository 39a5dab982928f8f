/** The string operations of Rust's standard library that the profile parser uses. A `char` is a
    Unicode scalar value; lengths that the source measures are UTF-8 byte counts. */
module Texts {
  function CharBytes(c: char): nat {
    var n := c as int;
    if n < 0x80 then 1 else if n < 0x800 then 2 else if n < 0x1_0000 then 3 else 4
  }

  function Bytes(s: string): (n: nat)
    ensures n >= |s|
  {
    if s == "" then 0 else CharBytes(s[0]) + Bytes(s[1..])
  }

  lemma {:induction false} BytesAppend(s: string, t: string)
    ensures Bytes(s + t) == Bytes(s) + Bytes(t)
    decreases |s|
  {
    if s == "" {
      assert s + t == t;
    } else {
      BytesAppend(s[1..], t);
      assert (s + t)[1..] == s[1..] + t;
    }
  }

  predicate IsAscii(s: string) { forall i :: 0 <= i < |s| ==> s[i] as int < 0x80 }

  lemma {:induction false} AsciiBytes(s: string)
    requires IsAscii(s)
    ensures Bytes(s) == |s|
    decreases |s|
  {
    if s != "" { AsciiBytes(s[1..]); }
  }

  // ----- white space -----

  /** The Unicode property White_Space. */
  predicate IsWhite(c: char) {
    var n := c as int;
    || 9 <= n <= 13 || n == 0x20 || n == 0x85 || n == 0xa0 || n == 0x1680 || 0x2000 <= n <= 0x200a
    || n == 0x2028 || n == 0x2029 || n == 0x202f || n == 0x205f || n == 0x3000
  }

  predicate IsAsciiBlank(c: char) { c == ' ' || c == '\t' || c == '\n' || c as int == 12 || c == '\r' }

  function TrimStart(s: string): (r: string)
    ensures |r| <= |s| && (r == "" || !IsWhite(r[0]))
  {
    if s != "" && IsWhite(s[0]) then TrimStart(s[1..]) else s
  }

  function TrimEnd(s: string): (r: string)
    ensures |r| <= |s| && r == s[..|r|] && (r == "" || !IsWhite(r[|r| - 1]))
  {
    if s != "" && IsWhite(s[|s| - 1]) then TrimEnd(s[..|s| - 1]) else s
  }

  function Trim(s: string): string { TrimEnd(TrimStart(s)) }

  /** `trim_end_matches('\r')`. */
  function StripReturns(s: string): (r: string)
    ensures |r| <= |s| && r == s[..|r|] && (r == "" || r[|r| - 1] != '\r')
  {
    if s != "" && s[|s| - 1] == '\r' then StripReturns(s[..|s| - 1]) else s
  }

  // ----- lines -----

  /** The position of the first `c`, or the length of the text. */
  function Find(s: string, c: char): (k: nat)
    ensures k <= |s| && (k < |s| ==> s[k] == c) && forall i :: 0 <= i < k ==> s[i] != c
  {
    if s == "" || s[0] == c then 0 else 1 + Find(s[1..], c)
  }

  function StripReturn(s: string): string { if s != "" && s[|s| - 1] == '\r' then s[..|s| - 1] else s }

  /** `str::lines`: a line ends with "\n" or "\r\n"; the last line ending is optional, and a lone
      carriage return at the very end belongs to its line. */
  function Lines(s: string): seq<string>
    decreases |s|
  {
    if s == "" then []
    else
      var k := Find(s, '\n');
      if k == |s| then [s] else [StripReturn(s[..k])] + Lines(s[k + 1..])
  }

  function Unlines(ls: seq<string>): string {
    if ls == [] then "" else ls[0] + "\n" + Unlines(ls[1..])
  }

  /** A line that survives being printed and split again. */
  predicate IsClean(l: string) { '\n' !in l && (l == "" || l[|l| - 1] != '\r') }

  predicate AreClean(ls: seq<string>) { forall i :: 0 <= i < |ls| ==> IsClean(ls[i]) }

  lemma {:induction false} LinesOfUnlines(ls: seq<string>)
    requires AreClean(ls)
    ensures Lines(Unlines(ls)) == ls
    decreases |ls|
  {
    if ls != [] {
      var s := Unlines(ls);
      LinesOfUnlines(ls[1..]);
      var k := Find(s, '\n');
      assert s[|ls[0]|] == '\n';
      assert forall i :: 0 <= i < |ls[0]| ==> s[i] == ls[0][i];
      assert s[..k] == ls[0];
      assert s[k + 1..] == Unlines(ls[1..]);
    }
  }

  lemma {:induction false} UnlinesAppend(a: seq<string>, b: seq<string>)
    ensures Unlines(a + b) == Unlines(a) + Unlines(b)
    decreases |a|
  {
    if a == [] {
      assert a + b == b;
    } else {
      UnlinesAppend(a[1..], b);
      assert (a + b)[1..] == a[1..] + b;
    }
  }

  lemma {:induction false} UnlinesSnoc(a: seq<string>, l: string)
    ensures Unlines(a + [l]) == Unlines(a) + l + "\n"
    ensures Bytes(Unlines(a + [l])) == Bytes(Unlines(a)) + Bytes(l) + 1
  {
    UnlinesAppend(a, [l]);
    assert Unlines([l]) == l + "\n";
    BytesAppend(Unlines(a), l + "\n");
    BytesAppend(l, "\n");
    assert Bytes("\n") == 1;
  }

  lemma {:induction false} UnlinesCons(l: string, a: seq<string>)
    ensures Unlines([l] + a) == l + "\n" + Unlines(a)
    ensures Bytes(Unlines([l] + a)) == Bytes(l) + 1 + Bytes(Unlines(a))
  {
    assert ([l] + a)[1..] == a;
    BytesAppend(l + "\n", Unlines(a));
    BytesAppend(l, "\n");
    assert Bytes("\n") == 1;
  }

  /** No line contains a line feed. */
  lemma {:induction false} LinesHaveNoFeed(s: string)
    ensures forall i :: 0 <= i < |Lines(s)| ==> '\n' !in Lines(s)[i]
    decreases |s|
  {
    if s != "" {
      var k := Find(s, '\n');
      if k < |s| { LinesHaveNoFeed(s[k + 1..]); }
    }
  }

  // ----- words -----

  function SkipBlanks(s: string): (r: string)
    ensures |r| <= |s| && (r == "" || !IsAsciiBlank(r[0]))
  {
    if s != "" && IsAsciiBlank(s[0]) then SkipBlanks(s[1..]) else s
  }

  function WordLength(s: string): (k: nat)
    ensures k <= |s| && (k < |s| ==> IsAsciiBlank(s[k])) && forall i :: 0 <= i < k ==> !IsAsciiBlank(s[i])
  {
    if s == "" || IsAsciiBlank(s[0]) then 0 else 1 + WordLength(s[1..])
  }

  /** `split_ascii_whitespace`. */
  function Words(s: string): seq<string>
    decreases |s|
  {
    var t := SkipBlanks(s);
    if t == "" then [] else [t[..WordLength(t)]] + Words(t[WordLength(t)..])
  }

  /** A non-empty word of visible ASCII characters. */
  predicate IsPlainWord(w: string) { w != "" && forall i :: 0 <= i < |w| ==> 0x21 <= w[i] as int < 0x7f }

  predicate ArePlainWords(ws: seq<string>) { ws != [] && forall i :: 0 <= i < |ws| ==> IsPlainWord(ws[i]) }

  /** The words with single spaces between them. */
  function Spaced(ws: seq<string>): string
    requires ws != []
  {
    if |ws| == 1 then ws[0] else ws[0] + " " + Spaced(ws[1..])
  }

  lemma {:induction false} WordsOfSpaced(ws: seq<string>)
    requires ArePlainWords(ws)
    ensures Words(Spaced(ws)) == ws && Words(" " + Spaced(ws)) == ws
    decreases |ws|
  {
    var s := Spaced(ws);
    assert s != "" && s[0] == ws[0][0];
    var k := WordLength(s);
    assert forall i :: 0 <= i < |ws[0]| ==> s[i] == ws[0][i];
    if |ws| == 1 {
      assert s[..k] == ws[0] && s[k..] == "";
      assert Words("") == [];
    } else {
      assert s[|ws[0]|] == ' ';
      WordsOfSpaced(ws[1..]);
      assert s[..k] == ws[0];
      assert s[k..] == " " + Spaced(ws[1..]);
    }
    assert SkipBlanks(" " + s) == s by { assert (" " + s)[1..] == s; }
  }

  lemma {:induction false} SpacedEnds(ws: seq<string>)
    requires ArePlainWords(ws)
    ensures Spaced(ws) != "" && !IsWhite(Spaced(ws)[0]) && !IsWhite(Spaced(ws)[|Spaced(ws)| - 1])
    ensures Spaced(ws)[0] == ws[0][0]
    ensures forall i :: 0 <= i < |Spaced(ws)| ==> 0x20 <= Spaced(ws)[i] as int < 0x7f
    decreases |ws|
  {
    if |ws| > 1 { SpacedEnds(ws[1..]); }
  }

  lemma {:induction false} SpacedIsTrimmed(ws: seq<string>)
    requires ArePlainWords(ws)
    ensures Trim(Spaced(ws)) == Spaced(ws) && IsClean(Spaced(ws)) && IsAscii(Spaced(ws))
  {
    SpacedEnds(ws);
  }

  function Lower(s: string): (r: string)
    ensures |r| == |s|
    ensures forall i :: 0 <= i < |s| ==> r[i] == if 'A' <= s[i] <= 'Z' then (s[i] as int + 32) as char else s[i]
  {
    seq(|s|, i requires 0 <= i < |s| => if 'A' <= s[i] <= 'Z' then (s[i] as int + 32) as char else s[i])
  }

  /** `str::split` with a character. */
  function SplitOn(s: string, c: char): (r: seq<string>)
    ensures r != []
    decreases |s|
  {
    var k := Find(s, c);
    if k == |s| then [s] else [s[..k]] + SplitOn(s[k + 1..], c)
  }

  lemma {:induction false} SplitFirst(a: string, c: char, rest: string)
    requires c !in a
    ensures SplitOn(a, c) == [a]
    ensures SplitOn(a + [c] + rest, c) == [a] + SplitOn(rest, c)
  {
    var s := a + [c] + rest;
    var k := Find(s, c);
    assert s[|a|] == c;
    assert forall i :: 0 <= i < |a| ==> s[i] == a[i];
    assert s[..k] == a && s[k + 1..] == rest;
  }

  // ----- order -----

  /** The order of a `BTreeSet<String>`; on scalar values it is the order of the UTF-8 bytes. */
  predicate Precedes(s: string, t: string) {
    s == "" || (t != "" && (s[0] < t[0] || (s[0] == t[0] && Precedes(s[1..], t[1..]))))
  }

  lemma {:induction false} PrecedesIsTotal(s: string, t: string)
    ensures Precedes(s, t) || Precedes(t, s)
    ensures Precedes(s, t) && Precedes(t, s) ==> s == t
    decreases |s|
  {
    if s != "" && t != "" && s[0] == t[0] {
      PrecedesIsTotal(s[1..], t[1..]);
      assert s == [s[0]] + s[1..] && t == [t[0]] + t[1..];
    }
  }

  lemma {:induction false} PrecedesIsTransitive(s: string, t: string, u: string)
    requires Precedes(s, t) && Precedes(t, u)
    ensures Precedes(s, u)
    decreases |s|
  {
    if s != "" && s[0] == t[0] && t[0] == u[0] { PrecedesIsTransitive(s[1..], t[1..], u[1..]); }
  }

  predicate IsFirst(s: string, all: set<string>) { s in all && forall t :: t in all ==> Precedes(s, t) }

  lemma {:induction false} FirstExists(all: set<string>)
    requires all != {}
    ensures exists s :: IsFirst(s, all)
    decreases all
  {
    var x :| x in all;
    PrecedesIsTotal(x, x);
    if all == {x} {
      assert IsFirst(x, all);
    } else {
      var rest := all - {x};
      assert rest != {} by { assert all == rest + {x}; }
      FirstExists(rest);
      var y :| IsFirst(y, rest);
      PrecedesIsTotal(x, y);
      var s := if Precedes(x, y) then x else y;
      forall t | t in all ensures Precedes(s, t) {
        if t != x && Precedes(x, y) { PrecedesIsTransitive(x, y, t); }
      }
      assert IsFirst(s, all);
    }
  }

  lemma FirstIsUnique(s: string, t: string, all: set<string>)
    requires IsFirst(s, all) && IsFirst(t, all)
    ensures s == t
  {
    PrecedesIsTotal(s, t);
  }

  /** The members of a set in their order. */
  ghost function InOrder(all: set<string>): seq<string>
    decreases |all|
  {
    if all == {} then [] else FirstExists(all); var s :| IsFirst(s, all); [s] + InOrder(all - {s})
  }

  lemma {:induction false} InOrderCons(all: set<string>, s: string)
    requires IsFirst(s, all)
    ensures InOrder(all) == [s] + InOrder(all - {s})
  {
    FirstExists(all);
    var t :| IsFirst(t, all) && InOrder(all) == [t] + InOrder(all - {t});
    FirstIsUnique(s, t, all);
  }

  lemma {:induction false} InOrderMembers(all: set<string>)
    ensures forall s :: s in InOrder(all) <==> s in all
    decreases |all|
  {
    if all != {} {
      FirstExists(all);
      var s :| IsFirst(s, all);
      InOrderCons(all, s);
      InOrderMembers(all - {s});
    }
  }

  /** The printed size of a set does not depend on where one member stands. */
  lemma {:induction false} InOrderSize(all: set<string>, x: string)
    requires x in all
    ensures Bytes(Unlines(InOrder(all))) == Bytes(x) + 1 + Bytes(Unlines(InOrder(all - {x})))
    decreases |all|
  {
    FirstExists(all);
    var s :| IsFirst(s, all);
    InOrderCons(all, s);
    UnlinesCons(s, InOrder(all - {s}));
    if s != x {
      InOrderSize(all - {s}, x);
      assert IsFirst(s, all - {x});
      InOrderCons(all - {x}, s);
      UnlinesCons(s, InOrder(all - {x} - {s}));
      assert all - {x} - {s} == all - {s} - {x};
    }
  }
}
