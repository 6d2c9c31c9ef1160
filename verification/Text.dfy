/** Rust's `str::trim`, and `BufRead::lines`. */
module Text {

  /** Unicode White_Space, the set `char::is_whitespace` tests. */
  predicate IsWhite(c: char) {
    var n := c as int;
    || 9 <= n <= 13
    || n == 0x20 || n == 0x85 || n == 0xA0 || n == 0x1680
    || 0x2000 <= n <= 0x200A
    || n == 0x2028 || n == 0x2029 || n == 0x202F || n == 0x205F || n == 0x3000
  }

  /** Its twenty-five characters. */
  lemma WhiteIs(c: char)
    ensures IsWhite(c) <==> c as int in {
      0x0009, 0x000A, 0x000B, 0x000C, 0x000D, 0x0020, 0x0085, 0x00A0, 0x1680,
      0x2000, 0x2001, 0x2002, 0x2003, 0x2004, 0x2005, 0x2006, 0x2007, 0x2008, 0x2009, 0x200A,
      0x2028, 0x2029, 0x202F, 0x205F, 0x3000 }
  {
  }

  function TrimStart(s: string): (r: string)
    ensures r == "" || !IsWhite(r[0])
    ensures s != "" && !IsWhite(s[|s| - 1]) ==> r != "" && r[|r| - 1] == s[|s| - 1]
  {
    if s == "" || !IsWhite(s[0]) then s else TrimStart(s[1..])
  }

  function TrimEnd(s: string): (r: string)
    ensures r <= s
    ensures r == "" || !IsWhite(r[|r| - 1])
  {
    if s == "" || !IsWhite(s[|s| - 1]) then s else TrimEnd(s[..|s| - 1])
  }

  predicate Trimmed(s: string) {
    s == "" || (!IsWhite(s[0]) && !IsWhite(s[|s| - 1]))
  }

  function Trim(s: string): (r: string)
    ensures Trimmed(r)
    ensures Trimmed(s) ==> r == s
  {
    TrimEnd(TrimStart(s))
  }

  predicate Blank(s: string) {
    Trim(s) == ""
  }

  lemma {:induction false} TrimStartBlank(s: string)
    ensures TrimStart(s) == "" <==> forall i :: 0 <= i < |s| ==> IsWhite(s[i])
  {
    if s != "" && IsWhite(s[0]) {
      TrimStartBlank(s[1..]);
      assert forall i :: 1 <= i < |s| ==> s[i] == s[1..][i - 1];
    }
  }

  lemma BlankIsAllWhite(s: string)
    ensures Blank(s) <==> forall i :: 0 <= i < |s| ==> IsWhite(s[i])
  {
    TrimStartBlank(s);
    var t := TrimStart(s);
    if t != "" && Blank(s) {
      TrimEndKeepsStart(t);
    }
  }

  lemma {:induction false} TrimEndKeepsStart(t: string)
    requires t != "" && !IsWhite(t[0])
    ensures TrimEnd(t) != ""
  {
    if IsWhite(t[|t| - 1]) {
      TrimEndKeepsStart(t[..|t| - 1]);
    }
  }

  ghost predicate AllWhite(s: string) {
    forall i :: 0 <= i < |s| ==> IsWhite(s[i])
  }

  lemma {:induction false} TrimStartCuts(s: string) returns (a: string)
    ensures s == a + TrimStart(s) && AllWhite(a)
  {
    if s == "" || !IsWhite(s[0]) {
      a := "";
    } else {
      var b := TrimStartCuts(s[1..]);
      a := [s[0]] + b;
      Assoc([s[0]], b, TrimStart(s[1..]));
      assert s == [s[0]] + s[1..];
    }
  }

  lemma {:induction false} TrimEndCuts(s: string) returns (b: string)
    ensures s == TrimEnd(s) + b && AllWhite(b)
  {
    if s == "" || !IsWhite(s[|s| - 1]) {
      b := "";
    } else {
      var n := |s| - 1;
      var c := TrimEndCuts(s[..n]);
      b := c + [s[n]];
      Assoc(TrimEnd(s[..n]), c, [s[n]]);
      assert s == s[..n] + [s[n]];
    }
  }

  /** Trimming cuts off white space at both ends and nothing else. */
  lemma TrimCuts(s: string) returns (a: string, b: string)
    ensures s == a + Trim(s) + b && AllWhite(a) && AllWhite(b)
  {
    a := TrimStartCuts(s);
    b := TrimEndCuts(TrimStart(s));
  }

  // ------------------------------------------------------------------ Lines

  function IndexOf(s: string, c: char): (i: nat)
    requires c in s
    ensures i < |s| && s[i] == c && c !in s[..i]
  {
    if s[0] == c then 0
    else
      var i := IndexOf(s[1..], c);
      assert s[..i + 1] == [s[0]] + s[1..][..i];
      i + 1
  }

  lemma {:induction false} IndexOfSplit(a: string, c: char, b: string)
    requires c !in a
    ensures c in a + [c] + b && IndexOf(a + [c] + b, c) == |a|
  {
    var s := a + [c] + b;
    assert s[|a|] == c;
    if a != "" {
      IndexOfSplit(a[1..], c, b);
      assert s[1..] == a[1..] + [c] + b;
      assert s[0] == a[0];
    }
  }

  /** `lines()` drops the newline and one carriage return before it. */
  function StripCr(s: string): string {
    if s != "" && s[|s| - 1] == '\r' then s[..|s| - 1] else s
  }

  /** The lines a buffered reader yields; an unterminated last line counts if it is not empty. */
  function Lines(s: string): seq<string>
    decreases |s|
  {
    if '\n' in s then
      var i := IndexOf(s, '\n');
      [StripCr(s[..i])] + Lines(s[i + 1..])
    else if s == "" then []
    else [s]
  }

  predicate Terminated(s: string) {
    s == "" || s[|s| - 1] == '\n'
  }

  lemma LinesCons(a: string, b: string)
    requires '\n' !in a
    ensures Lines(a + "\n" + b) == [StripCr(a)] + Lines(b)
  {
    IndexOfSplit(a, '\n', b);
    var s := a + "\n" + b;
    assert s[..|a|] == a && s[|a| + 1..] == b;
  }

  /** A line ends with a newline, or with a carriage return and a newline, or with the text. */
  lemma LineEnds(a: string, b: string)
    requires '\n' !in a
    ensures Lines(a + "\r\n" + b) == [a] + Lines(b)
    ensures a == "" || a[|a| - 1] != '\r' ==> Lines(a + "\n" + b) == [a] + Lines(b)
    ensures a != "" ==> Lines(a) == [a]
  {
    hide Lines;
    LinesCons(a, b);
    LinesCons(a + "\r", b);
    Assoc(a, "\r", "\n");
    assert "\r" + "\n" == "\r\n";
    assert (a + "\r")[..|a|] == a;
    LastLine(a);
  }

  lemma LastLine(a: string)
    requires '\n' !in a
    ensures a != "" ==> Lines(a) == [a]
  {
  }

  lemma OneLine(a: string)
    requires '\n' !in a
    ensures Lines(a + "\n") == [StripCr(a)]
  {
    LinesCons(a, "");
    assert a + "\n" + "" == a + "\n";
  }

  lemma FirstLine(s: string)
    requires s != "" && Terminated(s)
    ensures '\n' in s
    ensures var i := IndexOf(s, '\n'); s == s[..i] + "\n" + s[i + 1..] && Terminated(s[i + 1..])
  {
    assert s[|s| - 1] in s;
  }

  lemma Assoc(a: string, b: string, c: string)
    ensures (a + b) + c == a + (b + c)
  {
  }

  lemma AssocLines(a: seq<string>, b: seq<string>, c: seq<string>)
    ensures (a + b) + c == a + (b + c)
  {
  }

  /** Text added after a newline becomes lines of its own. */
  lemma {:induction false} LinesAppend(s: string, t: string)
    requires Terminated(s)
    ensures Lines(s + t) == Lines(s) + Lines(t)
    decreases |s|
  {
    if s == "" {
      assert s + t == t;
    } else {
      FirstLine(s);
      var i := IndexOf(s, '\n');
      var a, b := s[..i], s[i + 1..];
      LinesCons(a, b);
      LinesCons(a, b + t);
      Assoc(a + "\n", b, t);
      LinesAppend(b, t);
      AssocLines([StripCr(a)], Lines(b), Lines(t));
    }
  }

  /** The text after the last newline. */
  function Rest(s: string): (r: string)
    ensures |r| <= |s|
  {
    if s == "" || s[|s| - 1] == '\n' then "" else Rest(s[..|s| - 1]) + [s[|s| - 1]]
  }

  lemma {:induction false} RestIs(s: string)
    ensures var k := |s| - |Rest(s)|; Rest(s) == s[k..] && '\n' !in Rest(s) && Terminated(s[..k])
  {
    if s == "" || s[|s| - 1] == '\n' {
      assert s[|s|..] == "" && s[..|s|] == s;
    } else {
      var t, c := s[..|s| - 1], s[|s| - 1];
      RestIs(t);
      assert s == t + [c];
      CutSnoc(t, c, |t| - |Rest(t)|);
    }
  }

  lemma CutSnoc(t: string, c: char, k: nat)
    requires k <= |t|
    ensures (t + [c])[k..] == t[k..] + [c] && (t + [c])[..k] == t[..k]
  {
  }
}
