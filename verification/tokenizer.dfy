/**
 * The character tokenizer of the parser: whitespace is dropped, operator
 * characters and name characters form runs, and each parenthesis is a token
 * of its own.
 */
module Tokenizer {

  /** The three token types: an operator run, a parenthesis, a name run. */
  datatype Kind = OpKind | ParenKind | VarKind

  datatype Token = Token(kind: Kind, value: string)

  /** Space, newline and tab; every other character takes part in a token. */
  predicate IsSpace(ch: char) {
    ch == ' ' || ch == '\n' || ch == '\t'
  }

  /** The characters of the operator class `∧∨¬!→↔&|<>-`. */
  predicate IsOpChar(ch: char) {
    ch == '∧' || ch == '∨' || ch == '¬' || ch == '!' || ch == '→' || ch == '↔' ||
    ch == '&' || ch == '|' || ch == '<' || ch == '>' || ch == '-'
  }

  predicate IsParen(ch: char) {
    ch == '(' || ch == ')'
  }

  /** The type of the token a non-space character belongs to. */
  function KindOf(ch: char): Kind {
    if IsOpChar(ch) then OpKind else if IsParen(ch) then ParenKind else VarKind
  }

  /**
   * One step of the tokenizer loop: a space is skipped without ending the
   * current token; a character of the current token's type, unless it is a
   * parenthesis, extends that token; any other character starts a new one.
   */
  function Push(tokens: seq<Token>, ch: char): seq<Token> {
    if IsSpace(ch) then tokens
    else
      var k := KindOf(ch);
      if |tokens| > 0 && tokens[|tokens| - 1].kind == k && k != ParenKind then
        tokens[..|tokens| - 1] + [Token(k, tokens[|tokens| - 1].value + [ch])]
      else
        tokens + [Token(k, [ch])]
  }

  /** The tokens of a string: the characters pushed from left to right. */
  function Tokenize(s: string): seq<Token> {
    if s == [] then [] else Push(Tokenize(s[..|s| - 1]), s[|s| - 1])
  }

  /** The string without its spaces, newlines and tabs. */
  function Strip(s: string): (r: string)
    ensures |r| <= |s|
  {
    if s == [] then []
    else Strip(s[..|s| - 1]) + Kept(s[|s| - 1])
  }

  /** The token values written one after another. */
  function Flatten(ts: seq<Token>): string {
    if ts == [] then [] else Flatten(ts[..|ts| - 1]) + ts[|ts| - 1].value
  }

  /** A non-empty run of non-space characters of the token's type; a parenthesis token is one character. */
  predicate TokenOk(t: Token) {
    |t.value| > 0 &&
    (forall i | 0 <= i < |t.value| :: !IsSpace(t.value[i]) && KindOf(t.value[i]) == t.kind) &&
    (t.kind == ParenKind ==> |t.value| == 1)
  }

  /** Two neighbouring tokens could not have been one: different types, or parentheses. */
  predicate Separated(a: Token, b: Token) {
    a.kind != b.kind || a.kind == ParenKind
  }

  /** Every token is a run and neighbouring runs are maximal. */
  predicate WellFormed(ts: seq<Token>) {
    (forall i | 0 <= i < |ts| :: TokenOk(ts[i])) &&
    (forall i | 0 <= i < |ts| - 1 :: Separated(ts[i], ts[i + 1]))
  }

  lemma TokenizeSnoc(s: string, ch: char)
    ensures Tokenize(s + [ch]) == Push(Tokenize(s), ch)
  {
    assert (s + [ch])[..|s|] == s;
  }

  /** The non-space characters of a string, as they extend the written-out tokens. */
  function Kept(ch: char): string {
    if IsSpace(ch) then [] else [ch]
  }

  /** A merged token is still a run of its type. */
  lemma ExtendedTokenOk(t: Token, ch: char)
    requires TokenOk(t) && t.kind != ParenKind && !IsSpace(ch) && KindOf(ch) == t.kind
    ensures TokenOk(Token(t.kind, t.value + [ch]))
  {
  }

  /** One tokenizer step keeps the tokens maximal runs and writes out one more kept character. */
  lemma PushShape(ts: seq<Token>, ch: char)
    requires WellFormed(ts)
    ensures WellFormed(Push(ts, ch))
    ensures Flatten(Push(ts, ch)) == Flatten(ts) + Kept(ch)
  {
    if !IsSpace(ch) {
      var k := KindOf(ch);
      if |ts| > 0 && ts[|ts| - 1].kind == k && k != ParenKind {
        PushMerged(ts, ch);
      } else {
        PushStarted(ts, ch);
      }
    } else {
      assert Flatten(ts) + [] == Flatten(ts);
    }
  }

  /** A character that extends the last token. */
  lemma PushMerged(ts: seq<Token>, ch: char)
    requires WellFormed(ts) && !IsSpace(ch)
    requires |ts| > 0 && ts[|ts| - 1].kind == KindOf(ch) && KindOf(ch) != ParenKind
    ensures WellFormed(Push(ts, ch)) && Flatten(Push(ts, ch)) == Flatten(ts) + [ch]
  {
    var last := ts[|ts| - 1];
    var front := ts[..|ts| - 1];
    var r := front + [Token(last.kind, last.value + [ch])];
    assert Push(ts, ch) == r;
    ExtendedTokenOk(last, ch);
    assert Flatten(r) == Flatten(ts) + [ch] by {
      assert r[..|r| - 1] == front;
      assert Flatten(ts) == Flatten(front) + last.value;
    }
    forall i | 0 <= i < |r|
      ensures TokenOk(r[i])
    {
      if i < |front| {
        assert r[i] == ts[i];
      }
    }
    forall i | 0 <= i < |r| - 1
      ensures Separated(r[i], r[i + 1])
    {
      assert r[i] == ts[i];
      if i + 1 < |front| {
        assert r[i + 1] == ts[i + 1];
      } else {
        assert Separated(ts[i], ts[i + 1]);
      }
    }
  }

  /** A character that starts a new token. */
  lemma PushStarted(ts: seq<Token>, ch: char)
    requires WellFormed(ts) && !IsSpace(ch)
    requires !(|ts| > 0 && ts[|ts| - 1].kind == KindOf(ch) && KindOf(ch) != ParenKind)
    ensures WellFormed(Push(ts, ch)) && Flatten(Push(ts, ch)) == Flatten(ts) + [ch]
  {
    var r := ts + [Token(KindOf(ch), [ch])];
    assert Push(ts, ch) == r;
    assert Flatten(r) == Flatten(ts) + [ch] by {
      assert r[..|r| - 1] == ts;
    }
    forall i | 0 <= i < |r|
      ensures TokenOk(r[i])
    {
      if i < |ts| {
        assert r[i] == ts[i];
      }
    }
    forall i | 0 <= i < |r| - 1
      ensures Separated(r[i], r[i + 1])
    {
      assert r[i] == ts[i];
      if i + 1 < |ts| {
        assert r[i + 1] == ts[i + 1];
      }
    }
  }

  /** The tokens are maximal runs, and written out they give the string without its whitespace. */
  lemma {:induction false} TokenizeShape(s: string)
    ensures WellFormed(Tokenize(s))
    ensures Flatten(Tokenize(s)) == Strip(s)
  {
    if s != [] {
      TokenizeShape(s[..|s| - 1]);
      PushShape(Tokenize(s[..|s| - 1]), s[|s| - 1]);
    }
  }

  /**
   * Appending a run of one type after text whose tokens end with a token it
   * cannot merge with adds exactly that run as one token.
   */
  lemma {:induction false} TokenizeRun(p: string, ts: seq<Token>, t: Token)
    requires Tokenize(p) == ts
    requires TokenOk(t)
    requires |ts| > 0 ==> Separated(ts[|ts| - 1], t)
    ensures Tokenize(p + t.value) == ts + [t]
    decreases |t.value|
  {
    var v := t.value;
    var ch := v[|v| - 1];
    var front := v[..|v| - 1];
    assert !IsSpace(ch) && KindOf(ch) == t.kind;
    if |v| == 1 {
      calc {
        Tokenize(p + v);
        { assert p + v == p + [ch]; TokenizeSnoc(p, ch); }
        Push(ts, ch);
        { assert [ch] == v; }
        ts + [t];
      }
    } else {
      var t' := Token(t.kind, front);
      assert TokenOk(t');
      calc {
        Tokenize(p + v);
        { assert p + v == (p + front) + [ch]; TokenizeSnoc(p + front, ch); }
        Push(Tokenize(p + front), ch);
        { TokenizeRun(p, ts, t'); }
        Push(ts + [t'], ch);
        { PushExtends(ts, t', ch); assert front + [ch] == v; }
        ts + [t];
      }
    }
  }

  /** A character of a run's own type, not a parenthesis, extends the last token. */
  lemma PushExtends(ts: seq<Token>, t: Token, ch: char)
    requires !IsSpace(ch) && KindOf(ch) == t.kind && t.kind != ParenKind
    ensures Push(ts + [t], ch) == ts + [Token(t.kind, t.value + [ch])]
  {
    assert (ts + [t])[..|ts|] == ts;
  }

  /** Tokenizing the written-out text of well-formed tokens gives them back. */
  lemma {:induction false} TokenizeFlatten(ts: seq<Token>)
    requires WellFormed(ts)
    ensures Tokenize(Flatten(ts)) == ts
  {
    if ts != [] {
      var init := ts[..|ts| - 1];
      assert WellFormed(init);
      TokenizeFlatten(init);
      assert |init| > 0 ==> init[|init| - 1] == ts[|ts| - 2];
      TokenizeRun(Flatten(init), init, ts[|ts| - 1]);
      assert init + [ts[|ts| - 1]] == ts;
    }
  }

  /** Writing out two token sequences one after the other. */
  lemma {:induction false} FlattenAppend(a: seq<Token>, b: seq<Token>)
    ensures Flatten(a + b) == Flatten(a) + Flatten(b)
    decreases |b|
  {
    if b != [] {
      var b' := b[..|b| - 1];
      var last := b[|b| - 1];
      assert (a + b)[..|a + b| - 1] == a + b';
      assert (a + b)[|a + b| - 1] == last;
      FlattenAppend(a, b');
      calc {
        Flatten(a + b);
        Flatten(a + b') + last.value;
        Flatten(a) + Flatten(b') + last.value;
        Flatten(a) + (Flatten(b') + last.value);
      }
    } else {
      assert a + b == a;
    }
  }

  /** Dropping whitespace from two pieces of text one after the other. */
  lemma {:induction false} StripAppend(a: string, b: string)
    ensures Strip(a + b) == Strip(a) + Strip(b)
    decreases |b|
  {
    if b != [] {
      var b' := b[..|b| - 1];
      assert (a + b)[..|a + b| - 1] == a + b';
      assert (a + b)[|a + b| - 1] == b[|b| - 1];
      StripAppend(a, b');
    } else {
      assert a + b == a;
    }
  }

  /** Text without whitespace is left as it is. */
  lemma {:induction false} StripNoSpace(s: string)
    requires forall i | 0 <= i < |s| :: !IsSpace(s[i])
    ensures Strip(s) == s
  {
    if s != [] {
      StripNoSpace(s[..|s| - 1]);
    }
  }

  /** Text made only of whitespace strips to nothing. */
  lemma {:induction false} StripSpaces(s: string)
    requires forall i | 0 <= i < |s| :: IsSpace(s[i])
    ensures Strip(s) == []
  {
    if s != [] {
      StripSpaces(s[..|s| - 1]);
    }
  }

  /** Text followed by whitespace and then a run: the run is kept and the whitespace dropped. */
  lemma StripPiece(p: string, w: string, x: string)
    requires forall i | 0 <= i < |w| :: IsSpace(w[i])
    requires forall i | 0 <= i < |x| :: !IsSpace(x[i])
    ensures Strip(p + w + x) == Strip(p) + x
  {
    assert Strip(p + w) == Strip(p) by {
      StripAppend(p, w);
      StripSpaces(w);
      assert Strip(p) + [] == Strip(p);
    }
    assert Strip(x) == x by {
      StripNoSpace(x);
    }
    StripAppend(p + w, x);
  }

  /** Spaces, newlines and tabs do not change the tokens. */
  lemma WhitespaceIgnored(s: string)
    ensures Tokenize(s) == Tokenize(Strip(s))
  {
    TokenizeShape(s);
    TokenizeFlatten(Tokenize(s));
  }
}
