/** Python's `str.split()` with no separator, which the Postgres probe applies to the
    server's version string: runs of whitespace separate words, and leading and
    trailing whitespace produce no empty words. */
module Words {

  /** The characters Python's `str.split()` treats as whitespace. */
  predicate IsSpace(c: char) {
    c == ' ' || c == '\t' || c == '\n' || c == '\r' || c == '\U{000B}' || c == '\U{000C}'
    || ('\U{001C}' <= c <= '\U{001F}') || c == '\U{0085}' || c == '\U{00A0}' || c == '\U{1680}'
    || ('\U{2000}' <= c <= '\U{200A}') || c == '\U{2028}' || c == '\U{2029}' || c == '\U{202F}'
    || c == '\U{205F}' || c == '\U{3000}'
  }

  /** A word: non-empty and free of whitespace. */
  predicate IsWord(w: string) {
    w != [] && forall i :: 0 <= i < |w| ==> !IsSpace(w[i])
  }

  /** The length of the word that starts `s`. */
  function WordLength(s: string): (n: nat)
    requires s != [] && !IsSpace(s[0])
    ensures 1 <= n <= |s|
    ensures IsWord(s[..n])
    ensures n < |s| ==> IsSpace(s[n])
  {
    if |s| == 1 || IsSpace(s[1]) then 1 else 1 + WordLength(s[1..])
  }

  /** `s.split()`: the maximal runs of non-whitespace characters of `s`, in order. */
  function Split(s: string): (ws: seq<string>)
    ensures forall i :: 0 <= i < |ws| ==> IsWord(ws[i])
    decreases |s|
  {
    if s == [] then []
    else if IsSpace(s[0]) then Split(s[1..])
    else
      var n := WordLength(s);
      [s[..n]] + Split(s[n..])
  }

  /** `s.split()[0:2]`: at most the first two words. */
  function FirstTwoWords(s: string): (ws: seq<string>)
    ensures |ws| == if |Split(s)| < 2 then |Split(s)| else 2
    ensures ws <= Split(s)
  {
    var all := Split(s);
    if |all| < 2 then all else all[..2]
  }

  /** A string made of whitespace only (possibly empty). */
  predicate AllSpace(s: string) {
    forall i :: 0 <= i < |s| ==> IsSpace(s[i])
  }

  /** The words `ws` with `seps[i]` between `ws[i]` and `ws[i + 1]`. */
  function JoinWith(ws: seq<string>, seps: seq<string>): string
    requires (ws == [] && seps == []) || |ws| == |seps| + 1
  {
    if ws == [] then ""
    else if |ws| == 1 then ws[0]
    else ws[0] + seps[0] + JoinWith(ws[1..], seps[1..])
  }

  /** The characters of `s` that are not whitespace, in order. */
  function NonSpace(s: string): string {
    if s == [] then "" else if IsSpace(s[0]) then NonSpace(s[1..]) else [s[0]] + NonSpace(s[1..])
  }

  function Concat(ws: seq<string>): string {
    if ws == [] then "" else ws[0] + Concat(ws[1..])
  }

  lemma {:induction false} WordLengthOfWord(w: string, rest: string)
    requires IsWord(w)
    requires rest == [] || IsSpace(rest[0])
    ensures WordLength(w + rest) == |w|
    decreases |w|
  {
    var s := w + rest;
    if |w| == 1 {
    } else {
      assert s[1] == w[1];
      assert s[1..] == w[1..] + rest;
      WordLengthOfWord(w[1..], rest);
    }
  }

  /** Splitting a word followed by nothing or by whitespace yields that word first. */
  lemma SplitWordThen(w: string, rest: string)
    requires IsWord(w)
    requires rest == [] || IsSpace(rest[0])
    ensures Split(w + rest) == [w] + Split(rest)
  {
    WordLengthOfWord(w, rest);
    var s := w + rest;
    assert s[..|w|] == w;
    assert s[|w|..] == rest;
  }

  /** Leading whitespace produces no word. */
  lemma {:induction false} SplitSkipsSpace(sp: string, rest: string)
    requires AllSpace(sp)
    ensures Split(sp + rest) == Split(rest)
  {
    if sp == [] {
      assert sp + rest == rest;
    } else {
      assert (sp + rest)[0] == sp[0] && IsSpace(sp[0]);
      assert (sp + rest)[1..] == sp[1..] + rest;
      SplitSkipsSpace(sp[1..], rest);
    }
  }

  lemma {:induction false} SplitJoinThen(ws: seq<string>, seps: seq<string>, trail: string)
    requires (ws == [] && seps == []) || |ws| == |seps| + 1
    requires forall i :: 0 <= i < |ws| ==> IsWord(ws[i])
    requires forall i :: 0 <= i < |seps| ==> seps[i] != [] && AllSpace(seps[i])
    requires AllSpace(trail)
    ensures Split(JoinWith(ws, seps) + trail) == ws
  {
    if ws == [] {
      SplitSkipsSpace(trail, []);
      assert JoinWith(ws, seps) + trail == trail + [];
    } else if |ws| == 1 {
      SplitWordThen(ws[0], trail);
      SplitSkipsSpace(trail, []);
      assert trail + [] == trail;
    } else {
      var tail := JoinWith(ws[1..], seps[1..]) + trail;
      assert JoinWith(ws, seps) + trail == ws[0] + (seps[0] + tail);
      assert (seps[0] + tail)[0] == seps[0][0];
      SplitWordThen(ws[0], seps[0] + tail);
      SplitSkipsSpace(seps[0], tail);
      SplitJoinThen(ws[1..], seps[1..], trail);
      assert [ws[0]] + ws[1..] == ws;
    }
  }

  /** Splitting is the inverse of joining words with any non-empty runs of whitespace,
      with any whitespace before the first word and after the last. */
  lemma SplitJoinWith(lead: string, ws: seq<string>, seps: seq<string>, trail: string)
    requires (ws == [] && seps == []) || |ws| == |seps| + 1
    requires forall i :: 0 <= i < |ws| ==> IsWord(ws[i])
    requires forall i :: 0 <= i < |seps| ==> seps[i] != [] && AllSpace(seps[i])
    requires AllSpace(lead) && AllSpace(trail)
    ensures Split(lead + JoinWith(ws, seps) + trail) == ws
  {
    assert lead + JoinWith(ws, seps) + trail == lead + (JoinWith(ws, seps) + trail);
    SplitSkipsSpace(lead, JoinWith(ws, seps) + trail);
    SplitJoinThen(ws, seps, trail);
  }

  lemma {:induction false} NonSpaceAppend(a: string, b: string)
    ensures NonSpace(a + b) == NonSpace(a) + NonSpace(b)
  {
    if a == [] {
      assert a + b == b;
    } else {
      assert (a + b)[0] == a[0];
      assert (a + b)[1..] == a[1..] + b;
      NonSpaceAppend(a[1..], b);
    }
  }

  lemma {:induction false} NonSpaceOfWord(w: string)
    requires forall i :: 0 <= i < |w| ==> !IsSpace(w[i])
    ensures NonSpace(w) == w
  {
    if w != [] {
      NonSpaceOfWord(w[1..]);
    }
  }

  /** Splitting drops exactly the whitespace: the words, put back together, are the
      non-whitespace characters of the input. */
  lemma {:induction false} SplitKeepsNonSpace(s: string)
    ensures Concat(Split(s)) == NonSpace(s)
    decreases |s|
  {
    if s == [] {
    } else if IsSpace(s[0]) {
      SplitKeepsNonSpace(s[1..]);
    } else {
      var n := WordLength(s);
      var ws := [s[..n]] + Split(s[n..]);
      assert ws[0] == s[..n] && ws[1..] == Split(s[n..]);
      SplitKeepsNonSpace(s[n..]);
      NonSpaceOfWord(s[..n]);
      assert s == s[..n] + s[n..];
      NonSpaceAppend(s[..n], s[n..]);
    }
  }

  /** The first two words of "w1 <whitespace> w2 ..." are [w1, w2]. */
  lemma FirstTwoWordsOf(w1: string, sep: string, w2: string, rest: string)
    requires IsWord(w1) && IsWord(w2)
    requires sep != [] && AllSpace(sep)
    requires rest == [] || IsSpace(rest[0])
    ensures FirstTwoWords(w1 + sep + w2 + rest) == [w1, w2]
  {
    SplitWordThen(w2, rest);
    var tail := w2 + rest;
    SplitSkipsSpace(sep, tail);
    assert (sep + tail)[0] == sep[0];
    SplitWordThen(w1, sep + tail);
    assert w1 + sep + w2 + rest == w1 + (sep + tail);
  }
}
