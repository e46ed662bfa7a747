/** The mock generator: it cuts a response into words and emits them so that they read as one text again. */
module MockLlm {
  import opened FlushBatch
  import opened ProducerMachine

  /** White space as Unicode and Go's `unicode.IsSpace` have it. */
  predicate IsSpace(c: char) {
    || '\t' <= c <= '\r' || c == ' ' || c == '\U{85}' || c == '\U{A0}' || c == '\U{1680}'
    || '\U{2000}' <= c <= '\U{200A}' || c == '\U{2028}' || c == '\U{2029}' || c == '\U{202F}' || c == '\U{205F}' ||
        c == '\U{3000}'
  }

  function WordLength(s: string): (n: nat)
    ensures n <= |s| && (forall i :: 0 <= i < n ==> !IsSpace(s[i])) && (n < |s| ==> IsSpace(s[n]))
  {
    if s == "" || IsSpace(s[0]) then 0 else 1 + WordLength(s[1..])
  }

  /** The maximal stretches of `s` without white space. */
  function Fields(s: string): seq<string>
    decreases |s|
  {
    if s == "" then []
    else if IsSpace(s[0]) then Fields(s[1..])
    else [s[..WordLength(s)]] + Fields(s[WordLength(s)..])
  }

  /** The words as tokens: every one but the first brings the space before it. */
  function Tokens(words: seq<string>): seq<string> {
    seq(|words|, i requires 0 <= i < |words| => if i > 0 then " " + words[i] else words[i])
  }

  predicate IsWord(w: string) {
    w != "" && forall i :: 0 <= i < |w| ==> !IsSpace(w[i])
  }

  lemma {:induction false} FieldsAreWords(s: string)
    ensures forall w :: w in Fields(s) ==> IsWord(w)
    decreases |s|
  {
    if s != "" {
      FieldsAreWords(if IsSpace(s[0]) then s[1..] else s[WordLength(s)..]);
    }
  }

  /** The `i`-th word stands at `starts[i]`, between white space or the ends of `s`, and no other character is left. */
  ghost predicate Spans(s: string, words: seq<string>, starts: seq<nat>) {
    |starts| == |words| && AllStand(s, words, starts) && Ascending(words, starts) && AllCovered(s, words, starts)
  }

  ghost predicate AllStand(s: string, words: seq<string>, starts: seq<nat>)
    requires |starts| == |words|
  {
    forall i :: 0 <= i < |words| ==> Stands(s, words[i], starts[i])
  }

  ghost predicate Ascending(words: seq<string>, starts: seq<nat>)
    requires |starts| == |words|
  {
    forall i, j :: 0 <= i < j < |words| ==> starts[i] + |words[i]| < starts[j]
  }

  ghost predicate AllCovered(s: string, words: seq<string>, starts: seq<nat>)
    requires |starts| == |words|
  {
    forall p :: 0 <= p < |s| && !IsSpace(s[p]) ==> Covered(words, starts, p)
  }

  ghost predicate Stands(s: string, w: string, at: nat) {
    && at + |w| <= |s| && s[at..at + |w|] == w && IsWord(w)
    && (at == 0 || IsSpace(s[at - 1])) && (at + |w| == |s| || IsSpace(s[at + |w|]))
  }

  ghost predicate Covered(words: seq<string>, starts: seq<nat>, p: nat)
    requires |starts| == |words|
  {
    exists i :: 0 <= i < |words| && starts[i] <= p < starts[i] + |words[i]|
  }

  function Shifted(starts: seq<nat>, n: nat): seq<nat> {
    seq(|starts|, i requires 0 <= i < |starts| => starts[i] + n)
  }

  /** The same words stand in a longer string, behind white space. */
  lemma StandsShifted(s: string, n: nat, w: string, at: nat)
    requires n <= |s| && Stands(s[n..], w, at) && (at > 0 || n == 0 || IsSpace(s[n - 1]))
    ensures Stands(s, w, at + n)
  {
    assert s[n..][at..at + |w|] == s[at + n..at + n + |w|];
    if at > 0 { assert s[n..][at - 1] == s[at + n - 1]; }
  }

  lemma SpansShifted(s: string, words: seq<string>, starts: seq<nat>)
    requires s != "" && IsSpace(s[0]) && Spans(s[1..], words, starts)
    ensures Spans(s, words, Shifted(starts, 1))
  {
    forall i | 0 <= i < |words| ensures Stands(s, words[i], starts[i] + 1) { StandsShifted(s, 1, words[i], starts[i]); }
    forall p | 0 <= p < |s| && !IsSpace(s[p]) ensures Covered(words, Shifted(starts, 1), p) {
      assert s[p] == s[1..][p - 1] && Covered(words, starts, p - 1);
      var i :| 0 <= i < |words| && starts[i] <= p - 1 < starts[i] + |words[i]|;
      assert Shifted(starts, 1)[i] <= p;
    }
  }

  /** Behind a first word of length `n` the next one does not begin at once. */
  lemma StandsBehindWord(s: string, n: nat, w: string, at: nat)
    requires n <= |s| && (n < |s| ==> IsSpace(s[n])) && Stands(s[n..], w, at)
    ensures at > 0 && Stands(s, w, at + n)
  {
    assert s[n..][at] == s[n..][at..at + |w|][0];
    StandsShifted(s, n, w, at);
  }

  lemma CoveredBehindWord(first: string, words: seq<string>, starts: seq<nat>, p: nat)
    requires |starts| == |words| && p >= |first| && Covered(words, starts, p - |first|)
    ensures Covered([first] + words, [0] + Shifted(starts, |first|), p)
  {
    var all, at := [first] + words, [0] + Shifted(starts, |first|);
    var i :| 0 <= i < |words| && starts[i] <= p - |first| < starts[i] + |words[i]|;
    assert at[i + 1] <= p < at[i + 1] + |all[i + 1]|;
  }

  lemma AscendingBehindWord(first: string, words: seq<string>, starts: seq<nat>)
    requires |starts| == |words| && Ascending(words, starts) && forall k :: 0 <= k < |words| ==> starts[k] > 0
    ensures Ascending([first] + words, [0] + Shifted(starts, |first|))
  {
    var all, at := [first] + words, [0] + Shifted(starts, |first|);
    forall i, j | 0 <= i < j < |all| ensures at[i] + |all[i]| < at[j] {
      assert at[j] == starts[j - 1] + |first|;
      if i > 0 { assert starts[i - 1] + |words[i - 1]| < starts[j - 1]; }
    }
  }

  lemma AllStandBehindWord(s: string, n: nat, words: seq<string>, starts: seq<nat>)
    requires |starts| == |words| && n <= |s| && Stands(s, s[..n], 0) && AllStand(s[n..], words, starts)
    ensures AllStand(s, [s[..n]] + words, [0] + Shifted(starts, n))
    ensures forall k :: 0 <= k < |words| ==> starts[k] > 0
  {
    var all, at := [s[..n]] + words, [0] + Shifted(starts, n);
    forall k | 0 <= k < |words| ensures starts[k] > 0 && Stands(s, words[k], starts[k] + n) {
      StandsBehindWord(s, n, words[k], starts[k]);
    }
    forall i | 0 <= i < |all| ensures Stands(s, all[i], at[i]) {
      if i > 0 { assert all[i] == words[i - 1] && at[i] == starts[i - 1] + n; }
    }
  }

  lemma AllCoveredBehindWord(s: string, n: nat, words: seq<string>, starts: seq<nat>)
    requires |starts| == |words| && n <= |s| && AllCovered(s[n..], words, starts)
    ensures AllCovered(s, [s[..n]] + words, [0] + Shifted(starts, n))
  {
    var all, at := [s[..n]] + words, [0] + Shifted(starts, n);
    forall p | 0 <= p < |s| && !IsSpace(s[p]) ensures Covered(all, at, p) {
      if p < n {
        assert at[0] <= p < at[0] + |all[0]|;
      } else {
        assert s[p] == s[n..][p - n];
        CoveredBehindWord(s[..n], words, starts, p);
      }
    }
  }

  lemma SpansWord(s: string, n: nat, words: seq<string>, starts: seq<nat>)
    requires s != "" && !IsSpace(s[0]) && n == WordLength(s) && Spans(s[n..], words, starts)
    ensures Spans(s, [s[..n]] + words, [0] + Shifted(starts, n))
  {
    assert s[0..0 + |s[..n]|] == s[..n];
    AllStandBehindWord(s, n, words, starts);
    AscendingBehindWord(s[..n], words, starts);
    AllCoveredBehindWord(s, n, words, starts);
  }

  /** `Fields` finds exactly the words of a string, in order. */
  lemma {:induction false} FieldsSpan(s: string) returns (starts: seq<nat>)
    ensures Spans(s, Fields(s), starts)
    decreases |s|
  {
    if s == "" {
      starts := [];
    } else if IsSpace(s[0]) {
      var rest := FieldsSpan(s[1..]);
      SpansShifted(s, Fields(s[1..]), rest);
      starts := Shifted(rest, 1);
    } else {
      var n := WordLength(s);
      var rest := FieldsSpan(s[n..]);
      SpansWord(s, n, Fields(s[n..]), rest);
      starts := [0] + Shifted(rest, n);
    }
  }

  // ---------------------------------------------------------------- tokens join to the normalised response

  datatype Scan = Outside | InWord | Gap

  /** `s` read character by character: outer white space dropped, every inner run of it made one space. */
  function Squeeze(s: string, at: Scan): string {
    if s == "" then ""
    else if IsSpace(s[0]) then Squeeze(s[1..], if at == Outside then Outside else Gap)
    else
      var rest := [s[0]] + Squeeze(s[1..], InWord);
      if at == Gap then " " + rest else rest
  }

  function Glue(words: seq<string>, first: bool): string {
    if words == [] then ""
    else
      var rest := words[0] + Glue(words[1..], false);
      if first then rest else " " + rest
  }

  lemma {:induction false} JoinedCons(d: string, ds: seq<string>)
    ensures Joined([d] + ds) == d + Joined(ds)
  {
    if ds == [] {
      assert [d] + ds == [d] && Joined([d]) == Joined([]) + d;
    } else {
      var init := ds[..|ds| - 1];
      assert ([d] + ds)[..|ds|] == [d] + init;
      JoinedCons(d, init);
    }
  }

  function SpacedTokens(words: seq<string>): seq<string> {
    seq(|words|, i requires 0 <= i < |words| => " " + words[i])
  }

  lemma {:induction false} SpacedTokensGlue(words: seq<string>)
    ensures Joined(SpacedTokens(words)) == Glue(words, false)
  {
    if words != [] {
      var w, rest := words[0], words[1..];
      SpacedTokensGlue(rest);
      assert SpacedTokens(words) == [" " + w] + SpacedTokens(rest);
      JoinedCons(" " + w, SpacedTokens(rest));
      Associate(" ", w, Glue(rest, false));
    }
  }

  lemma TokensGlue(words: seq<string>)
    ensures Joined(Tokens(words)) == Glue(words, true)
  {
    if words != [] {
      var rest := words[1..];
      assert Tokens(words) == [words[0]] + SpacedTokens(rest);
      JoinedCons(words[0], SpacedTokens(rest));
      SpacedTokensGlue(rest);
    }
  }

  lemma {:induction false} SqueezeWord(s: string, n: nat)
    requires n <= |s| && forall i :: 0 <= i < n ==> !IsSpace(s[i])
    ensures Squeeze(s, InWord) == s[..n] + Squeeze(s[n..], InWord)
  {
    if n > 0 {
      SqueezeWord(s[1..], n - 1);
      assert s[..n] == [s[0]] + s[1..][..n - 1] && s[1..][n - 1..] == s[n..];
      assert Squeeze(s, InWord) == [s[0]] + Squeeze(s[1..], InWord);
    } else {
      assert s[0..] == s;
    }
  }

  lemma SqueezeFirstWord(s: string, at: Scan)
    requires s != "" && !IsSpace(s[0]) && at != InWord
    ensures var n := WordLength(s);
            Squeeze(s, at) == if at == Gap then " " + (s[..n] + Squeeze(s[n..], Gap)) else s[..n] + Squeeze(s[n..], Gap)
  {
    var n := WordLength(s);
    SqueezeWord(s, n);
    assert Squeeze(s[n..], InWord) == Squeeze(s[n..], Gap);
    assert Squeeze(s, at) == if at == Gap then " " + Squeeze(s, InWord) else Squeeze(s, InWord);
  }

  lemma GlueCons(w: string, words: seq<string>, first: bool)
    ensures Glue([w] + words, first) == if first then w + Glue(words, false) else " " + (w + Glue(words, false))
  {
    assert ([w] + words)[1..] == words;
  }

  lemma {:induction false} SqueezeIsGlue(s: string, at: Scan)
    requires at != InWord
    ensures Squeeze(s, at) == Glue(Fields(s), at == Outside)
    decreases |s|
  {
    if s == "" {
    } else if IsSpace(s[0]) {
      SqueezeIsGlue(s[1..], at);
    } else {
      var n := WordLength(s);
      SqueezeFirstWord(s, at);
      SqueezeIsGlue(s[n..], Gap);
      GlueCons(s[..n], Fields(s[n..]), at == Outside);
    }
  }

  /** The tokens of any response concatenate to the response with its white space normalised. */
  lemma TokensSpellNormalised(response: string)
    ensures Joined(Tokens(Fields(response))) == Squeeze(response, Outside)
  {
    TokensGlue(Fields(response));
    SqueezeIsGlue(response, Outside);
  }

  // ---------------------------------------------------------------- splitting again

  lemma {:induction false} WordLengthIs(w: string, rest: string)
    requires (forall i :: 0 <= i < |w| ==> !IsSpace(w[i])) && (rest == "" || IsSpace(rest[0]))
    ensures WordLength(w + rest) == |w|
  {
    if w == "" {
      assert w + rest == rest;
    } else {
      assert (w + rest)[1..] == w[1..] + rest;
      WordLengthIs(w[1..], rest);
    }
  }

  lemma FieldsFirstWord(w: string, rest: string)
    requires IsWord(w) && (rest == "" || IsSpace(rest[0]))
    ensures Fields(w + rest) == [w] + Fields(rest)
  {
    WordLengthIs(w, rest);
    assert (w + rest)[0] == w[0] && (w + rest)[..|w|] == w && (w + rest)[|w|..] == rest;
  }

  lemma FieldsAfterSpace(s: string)
    ensures Fields(" " + s) == Fields(s)
  {
    assert (" " + s)[1..] == s;
  }

  lemma GlueStarts(words: seq<string>)
    ensures Glue(words, false) == "" || IsSpace(Glue(words, false)[0])
  {
  }

  lemma {:induction false} FieldsOfGlue(words: seq<string>, first: bool)
    requires forall w :: w in words ==> IsWord(w)
    ensures Fields(Glue(words, first)) == words
  {
    if words != [] {
      var w, rest := words[0], Glue(words[1..], false);
      FieldsOfGlue(words[1..], false);
      GlueStarts(words[1..]);
      FieldsFirstWord(w, rest);
      FieldsAfterSpace(w + rest);
      assert words == [w] + words[1..];
    }
  }

  /** Splitting and joining undo each other: the text the tokens spell splits into the same words again. */
  lemma SplittingAgain(response: string)
    ensures Fields(Joined(Tokens(Fields(response)))) == Fields(response)
  {
    FieldsAreWords(response);
    TokensGlue(Fields(response));
    FieldsOfGlue(Fields(response), true);
  }

  /** Only single spaces, and only between words. */
  ghost predicate Normal(s: string) {
    forall i :: 0 <= i < |s| && IsSpace(s[i]) ==> s[i] == ' ' && 0 < i < |s| - 1 && !IsSpace(s[i + 1])
  }

  lemma {:induction false} NormalStays(s: string)
    requires s != "" && forall i :: 0 <= i < |s| && IsSpace(s[i]) ==> s[i] == ' ' && i < |s| - 1 && !IsSpace(s[i + 1])
    ensures Squeeze(s, InWord) == s
    decreases |s|
  {
    if IsSpace(s[0]) {
      assert !IsSpace(s[1]);
      assert Squeeze(s, InWord) == Squeeze(s[1..], Gap);
      assert Squeeze(s[1..], Gap) == " " + [s[1]] + Squeeze(s[2..], InWord) by { assert s[1..][1..] == s[2..]; }
      if |s| > 2 { NormalStays(s[2..]); }
      assert s == " " + [s[1]] + s[2..];
    } else {
      if |s| > 1 { NormalStays(s[1..]); }
      assert s == [s[0]] + s[1..];
    }
  }

  /** Single spaces, none of them at the end. */
  ghost predicate Spaced(t: string) {
    forall i :: 0 <= i < |t| && IsSpace(t[i]) ==> t[i] == ' ' && i < |t| - 1 && !IsSpace(t[i + 1])
  }

  lemma SpacedChar(c: char, rest: string)
    requires !IsSpace(c) && Spaced(rest)
    ensures Spaced([c] + rest)
  {
    var t := [c] + rest;
    forall i | 0 <= i < |t| && IsSpace(t[i]) ensures t[i] == ' ' && i < |t| - 1 && !IsSpace(t[i + 1]) {
      assert t[i] == rest[i - 1];
      assert t[i + 1] == rest[i];
    }
  }

  lemma SpacedGap(rest: string)
    requires rest != "" && !IsSpace(rest[0]) && Spaced(rest)
    ensures Spaced(" " + rest)
  {
    var t := " " + rest;
    forall i | 0 < i < |t| && IsSpace(t[i]) ensures t[i] == ' ' && i < |t| - 1 && !IsSpace(t[i + 1]) {
      assert t[i] == rest[i - 1];
      assert t[i + 1] == rest[i];
    }
    assert t[1] == rest[0];
  }

  lemma {:induction false} SqueezedShape(s: string, at: Scan)
    ensures Spaced(Squeeze(s, at)) && (at == Outside && Squeeze(s, at) != "" ==> !IsSpace(Squeeze(s, at)[0]))
  {
    if s != "" {
      if IsSpace(s[0]) {
        SqueezedShape(s[1..], if at == Outside then Outside else Gap);
      } else {
        SqueezedShape(s[1..], InWord);
        SpacedChar(s[0], Squeeze(s[1..], InWord));
        if at == Gap { SpacedGap([s[0]] + Squeeze(s[1..], InWord)); }
      }
    }
  }

  /** A response is rebuilt exactly if and only if it has single inner spaces and no outer white space. */
  lemma RebuiltIffNormal(response: string)
    ensures Joined(Tokens(Fields(response))) == response <==> Normal(response)
  {
    TokensSpellNormalised(response);
    SqueezedShape(response, Outside);
    if Normal(response) && response != "" {
      NormalStays(response);
      assert !IsSpace(response[0]);
      assert Squeeze(response, Outside) == Squeeze(response, InWord);
    }
  }

  // ---------------------------------------------------------------- the generator

  /** Wherever the tokens are cut off, they read as the words so far with single spaces between them and none after. */
  lemma CutTokensRead(words: seq<string>, k: nat)
    requires k <= |words| && forall w :: w in words ==> IsWord(w)
    ensures Fields(Joined(Tokens(words)[..k])) == words[..k] && Normal(Joined(Tokens(words)[..k]))
  {
    assert Tokens(words)[..k] == Tokens(words[..k]);
    TokensGlue(words[..k]);
    FieldsOfGlue(words[..k], true);
    RebuiltIffNormal(Joined(Tokens(words[..k])));
  }

  /**
   `taken` is how many tokens the receiver takes before the context is cancelled. That many are emitted, or all;
   behind each of them the text so far is the response's words up to there, with single spaces between them only.
   */
  method Generate(response: string, taken: nat) returns (tokens: seq<string>)
    ensures tokens == if taken < |Fields(response)| then Tokens(Fields(response))[..taken] else Tokens(Fields(response))
    ensures |tokens| == if taken < |Fields(response)| then taken else |Fields(response)|
    ensures forall k :: 0 <= k <= |tokens| ==>
              Fields(Joined(tokens[..k])) == Fields(response)[..k] && Normal(Joined(tokens[..k]))
    ensures taken >= |Fields(response)| ==> Joined(tokens) == Squeeze(response, Outside)
  {
    var words := Fields(response);
    tokens := [];
    var i := 0;
    while i < |words|
      invariant 0 <= i <= |words| && i <= taken && tokens == Tokens(words)[..i]
    {
      var token := words[i];
      if i > 0 {
        token := " " + token;
      }
      if i == taken {
        break;
      }
      tokens := tokens + [token];
      i := i + 1;
    }
    TokensSpellNormalised(response);
    FieldsAreWords(response);
    forall k | 0 <= k <= |tokens|
      ensures Fields(Joined(tokens[..k])) == words[..k] && Normal(Joined(tokens[..k]))
    {
      assert tokens[..k] == Tokens(words)[..k];
      CutTokensRead(words, k);
    }
  }
}
