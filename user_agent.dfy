/** The user-agent clean-up applied to the shared rendering profile: split
    the engine's user-agent string on whitespace, drop every token that
    names the embedded web engine, and join the rest with single spaces. */
module UserAgent {

  const EngineMarker := "QtWebEngine"

  /** Python's notion of a whitespace character (str.isspace), by code point. */
  predicate IsSpace(c: char) {
    var n := c as int;
    || n == 0x20 || 0x09 <= n <= 0x0D || 0x1C <= n <= 0x1F
    || n == 0x85 || n == 0xA0 || n == 0x1680 || 0x2000 <= n <= 0x200A
    || n == 0x2028 || n == 0x2029 || n == 0x202F || n == 0x205F || n == 0x3000
  }

  /** What str.split() yields: a non-empty run of non-whitespace. */
  predicate IsToken(w: string) {
    |w| > 0 && forall i :: 0 <= i < |w| ==> !IsSpace(w[i])
  }

  predicate AllTokens(words: seq<string>) {
    forall i :: 0 <= i < |words| ==> IsToken(words[i])
  }

  /** `sub in s` on strings. */
  predicate Contains(s: string, sub: string)
    decreases |s|
  {
    if |s| < |sub| then false
    else s[..|sub|] == sub || Contains(s[1..], sub)
  }

  /** s without its leading whitespace. */
  function SkipSpaces(s: string): (r: string)
    ensures |r| <= |s| && r == s[|s| - |r|..]
    ensures r == [] || !IsSpace(r[0])
    ensures forall i :: 0 <= i < |s| - |r| ==> IsSpace(s[i])
  {
    if s != [] && IsSpace(s[0]) then SkipSpaces(s[1..]) else s
  }

  /** The length of the longest whitespace-free prefix of s. */
  function WordLength(s: string): (n: nat)
    ensures n <= |s|
    ensures forall i :: 0 <= i < n ==> !IsSpace(s[i])
    ensures n < |s| ==> IsSpace(s[n])
  {
    if s == [] || IsSpace(s[0]) then 0 else 1 + WordLength(s[1..])
  }

  /** str.split() with no separator: the maximal whitespace-free runs of s,
      in order. */
  function Split(s: string): (r: seq<string>)
    ensures forall i :: 0 <= i < |r| ==> IsToken(r[i])
    decreases |s|
  {
    var t := SkipSpaces(s);
    if t == [] then []
    else
      var n := WordLength(t);
      [t[..n]] + Split(t[n..])
  }

  /** ' '.join(words): the words with one space between neighbours. */
  function Join(words: seq<string>): (r: string)
    ensures words != [] && words[0] != [] ==> r != [] && r[0] == words[0][0]
    ensures words != [] ==> |r| == |Concat(words)| + |words| - 1
  {
    if words == [] then ""
    else if |words| == 1 then words[0]
    else words[0] + " " + Join(words[1..])
  }

  /** The tokens that do not name the engine, in their original order. */
  function KeepTokens(words: seq<string>): (r: seq<string>)
    ensures forall w :: w in r <==> w in words && !Contains(w, EngineMarker)
  {
    if words == [] then []
    else (if Contains(words[0], EngineMarker) then [] else [words[0]]) + KeepTokens(words[1..])
  }

  /** The user agent the profile is given: exactly the kept tokens of the
      original, in their original order, with one space between
      neighbours and no other whitespace. */
  function FilterUserAgent(ua: string): (r: string)
    ensures Split(r) == KeepTokens(Split(ua))
    ensures r == [] <==> KeepTokens(Split(ua)) == []
    ensures KeepTokens(Split(ua)) != [] ==> |r| == |Concat(KeepTokens(Split(ua)))| + |KeepTokens(Split(ua))| - 1
    ensures forall i :: 0 <= i < |r| && IsSpace(r[i]) ==> r[i] == ' '
  {
    var kept := KeepTokens(Split(ua));
    KeptAreTokens(Split(ua));
    SplitJoin(kept);
    JoinSpacing(kept);
    Join(kept)
  }

  /** sub occurs in s starting at position i. */
  predicate OccursAt(s: string, sub: string, i: int) {
    0 <= i <= |s| - |sub| && s[i..i + |sub|] == sub
  }

  lemma OccursShift(s: string, sub: string, i: int)
    requires s != [] && i > 0
    ensures OccursAt(s, sub, i) <==> OccursAt(s[1..], sub, i - 1)
  {
    if 0 <= i <= |s| - |sub| {
      var shifted, here := s[1..][i - 1..i - 1 + |sub|], s[i..i + |sub|];
      forall j | 0 <= j < |sub|
        ensures shifted[j] == here[j]
      {
        assert shifted[j] == s[i + j] == here[j];
      }
    }
  }

  /** `sub in s` holds exactly when sub occurs at some position of s. */
  lemma {:induction false} ContainsAt(s: string, sub: string)
    ensures Contains(s, sub) <==> exists i :: OccursAt(s, sub, i)
    decreases |s|
  {
    if |s| >= |sub| {
      if s[..|sub|] == sub {
        assert OccursAt(s, sub, 0);
      } else if Contains(s, sub) {
        ContainsAt(s[1..], sub);
        {
          var i :| OccursAt(s[1..], sub, i);
          OccursShift(s, sub, i + 1);
        }
      } else {
        ContainsAt(s[1..], sub);
        forall i | OccursAt(s, sub, i)
          ensures false
        {
          if i > 0 {
            OccursShift(s, sub, i);
          }
        }
      }
    } else {
      forall i | OccursAt(s, sub, i)
        ensures false
      {
      }
    }
  }

  /** s without its whitespace characters. */
  function NonSpace(s: string): (r: string)
    ensures |r| <= |s|
    ensures forall i :: 0 <= i < |r| ==> !IsSpace(r[i])
  {
    if s == [] then []
    else (if IsSpace(s[0]) then [] else [s[0]]) + NonSpace(s[1..])
  }

  function Concat(words: seq<string>): (r: string) {
    if words == [] then [] else words[0] + Concat(words[1..])
  }

  /** str.split() once more, as a scan over the characters: whitespace
      separates, and a non-whitespace character extends the token the next
      character belongs to, or starts one of its own before whitespace or
      the end. */
  function Words(s: string): (r: seq<string>)
    ensures s != [] && !IsSpace(s[0]) ==> r != []
    decreases |s|
  {
    if s == [] then []
    else
      var rest := Words(s[1..]);
      if IsSpace(s[0]) then rest
      else if |s| > 1 && !IsSpace(s[1]) then [[s[0]] + rest[0]] + rest[1..]
      else [[s[0]]] + rest
  }

  lemma SplitLeadingSpace(s: string)
    requires s != [] && IsSpace(s[0])
    ensures Split(s) == Split(s[1..])
  {
    assert SkipSpaces(s) == SkipSpaces(s[1..]);
  }

  lemma SplitWordStart(s: string)
    requires s != [] && !IsSpace(s[0])
    ensures Split(s) == [s[..WordLength(s)]] + Split(s[WordLength(s)..])
  {
    assert SkipSpaces(s) == s;
  }

  lemma SplitLongWord(s: string)
    requires |s| > 1 && !IsSpace(s[0]) && !IsSpace(s[1])
    ensures Split(s[1..]) != []
    ensures Split(s) == [[s[0]] + Split(s[1..])[0]] + Split(s[1..])[1..]
  {
    var u := s[1..];
    var m := WordLength(u);
    assert WordLength(s) == m + 1;
    SplitWordStart(s);
    SplitWordStart(u);
    ShiftSlices(s, m);
  }

  /** Slicing after dropping the head is slicing one further on. */
  lemma ShiftSlices<T>(s: seq<T>, m: nat)
    requires m < |s|
    ensures s[1..][m..] == s[m + 1..]
    ensures [s[0]] + s[1..][..m] == s[..m + 1]
  {
  }

  lemma SplitShortWord(s: string)
    requires s != [] && !IsSpace(s[0]) && (|s| == 1 || IsSpace(s[1]))
    ensures Split(s) == [[s[0]]] + Split(s[1..])
  {
    var u := s[1..];
    if u != [] {
      assert u[0] == s[1];
    }
    assert WordLength(u) == 0;
    assert WordLength(s) == 1;
    SplitWordStart(s);
    assert s[..1] == [s[0]];
  }

  /** Split and the character scan agree on every string. */
  lemma {:induction false} SplitByCharacters(s: string)
    ensures Split(s) == Words(s)
    decreases |s|
  {
    if s != [] {
      SplitByCharacters(s[1..]);
      if IsSpace(s[0]) {
        SplitLeadingSpace(s);
      } else if |s| > 1 && !IsSpace(s[1]) {
        SplitLongWord(s);
      } else {
        SplitShortWord(s);
      }
    }
  }

  lemma ConcatCons(w: string, rest: seq<string>)
    ensures Concat([w] + rest) == w + Concat(rest)
  {
    assert ([w] + rest)[0] == w;
    assert ([w] + rest)[1..] == rest;
  }

  lemma {:induction false} WordsKeepCharacters(s: string)
    ensures Concat(Words(s)) == NonSpace(s)
    decreases |s|
  {
    if s != [] {
      WordsKeepCharacters(s[1..]);
      var rest := Words(s[1..]);
      if IsSpace(s[0]) {
      } else if |s| > 1 && !IsSpace(s[1]) {
        ConcatCons([s[0]] + rest[0], rest[1..]);
        ConcatCons(rest[0], rest[1..]);
        assert [rest[0]] + rest[1..] == rest;
        assert [s[0]] + rest[0] + Concat(rest[1..]) == [s[0]] + (rest[0] + Concat(rest[1..]));
      } else {
        ConcatCons([s[0]], rest);
      }
    }
  }

  /** The tokens of a split are exactly the non-whitespace characters of
      the string, in order. */
  lemma SplitKeepsCharacters(s: string)
    ensures Concat(Split(s)) == NonSpace(s)
  {
    SplitByCharacters(s);
    WordsKeepCharacters(s);
  }

  lemma {:induction false} KeptAreTokens(words: seq<string>)
    requires forall i :: 0 <= i < |words| ==> IsToken(words[i])
    ensures forall i :: 0 <= i < |KeepTokens(words)| ==> IsToken(KeepTokens(words)[i])
  {
    if words != [] {
      KeptAreTokens(words[1..]);
    }
  }

  lemma {:induction false} WordLengthOfToken(w: string, rest: string)
    requires IsToken(w)
    requires rest == [] || IsSpace(rest[0])
    ensures WordLength(w + rest) == |w|
  {
    if |w| == 1 {
      assert (w + rest)[1..] == rest;
    } else {
      assert (w + rest)[1..] == w[1..] + rest;
      WordLengthOfToken(w[1..], rest);
    }
  }

  lemma SplitToken(w: string, rest: string)
    requires IsToken(w)
    requires rest == [] || IsSpace(rest[0])
    ensures Split(w + rest) == [w] + Split(rest)
  {
    assert SkipSpaces(w + rest) == w + rest;
    WordLengthOfToken(w, rest);
    assert (w + rest)[..|w|] == w;
    assert (w + rest)[|w|..] == rest;
  }

  lemma SplitSpace(s: string)
    requires s != [] && !IsSpace(s[0])
    ensures Split(" " + s) == Split(s)
  {
  }

  lemma SplitJoinStep(w: string, j: string)
    requires IsToken(w) && j != [] && !IsSpace(j[0])
    ensures Split(w + " " + j) == [w] + Split(j)
  {
    assert w + " " + j == w + (" " + j);
    SplitToken(w, " " + j);
    SplitSpace(j);
  }

  /** A join of tokens is empty only for no tokens, and its only
      whitespace is the single spaces between them. */
  lemma {:induction false} JoinSpacing(words: seq<string>)
    requires AllTokens(words)
    ensures Join(words) == [] <==> words == []
    ensures forall i :: 0 <= i < |Join(words)| && IsSpace(Join(words)[i]) ==> Join(words)[i] == ' '
  {
    if |words| > 1 {
      var tail := words[1..];
      assert forall i :: 0 <= i < |tail| ==> tail[i] == words[i + 1];
      JoinSpacing(tail);
      var r, j := Join(words), Join(tail);
      assert r == words[0] + " " + j;
      forall i | 0 <= i < |r| && IsSpace(r[i])
        ensures r[i] == ' '
      {
        if i > |words[0]| {
          assert r[i] == j[i - |words[0]| - 1];
        }
      }
    }
  }

  /** Splitting a single-space join of tokens gives the tokens back. */
  lemma {:induction false} SplitJoin(words: seq<string>)
    requires forall i :: 0 <= i < |words| ==> IsToken(words[i])
    ensures Split(Join(words)) == words
  {
    if |words| == 1 {
      SplitToken(words[0], "");
      assert words[0] + "" == words[0];
    } else if |words| > 1 {
      var tail := words[1..];
      forall i | 0 <= i < |tail|
        ensures IsToken(tail[i])
      {
        assert tail[i] == words[i + 1];
      }
      SplitJoin(tail);
      var j := Join(tail);
      assert Join(words) == words[0] + " " + j;
      assert tail[0] == words[1];
      SplitJoinStep(words[0], j);
      assert [words[0]] + tail == words;
    }
  }

  lemma {:induction false} KeepTokensTwice(words: seq<string>)
    ensures KeepTokens(KeepTokens(words)) == KeepTokens(words)
  {
    if words != [] {
      KeepTokensTwice(words[1..]);
      var head := if Contains(words[0], EngineMarker) then [] else [words[0]];
      KeepTokensAppend(head, KeepTokens(words[1..]));
    }
  }

  lemma {:induction false} KeepTokensAppend(a: seq<string>, b: seq<string>)
    ensures KeepTokens(a + b) == KeepTokens(a) + KeepTokens(b)
  {
    if a == [] {
      assert a + b == b;
    } else {
      assert (a + b)[0] == a[0];
      assert (a + b)[1..] == a[1..] + b;
      KeepTokensAppend(a[1..], b);
    }
  }

  /** No token of the filtered user agent names the engine. */
  lemma NoEngineToken(ua: string)
    ensures forall w :: w in Split(FilterUserAgent(ua)) ==> !Contains(w, EngineMarker)
  {
  }

  /** Filtering a filtered user agent changes nothing. */
  lemma FilterIdempotent(ua: string)
    ensures FilterUserAgent(FilterUserAgent(ua)) == FilterUserAgent(ua)
  {
    KeepTokensTwice(Split(ua));
  }
}
