/**
 * A regular-expression engine for the patterns the downloader uses: a
 * sequence of tokens, each a character class taken once (`c`) or one or
 * more times (`c+`), matched greedily. When every `c+` is followed by a token
 * whose characters it cannot contain, greedy matching is the only way a
 * match can go, so it agrees with Python's backtracking engine; `Search`
 * returns the leftmost match, as `re.search` does.
 */
module Pattern {
  import opened Wrappers
  import opened Text

  /** The character classes of `PROGRESS_RE` under `re.I`, over ASCII. */
  datatype CharClass =
    | Hex          // [0-9a-f]
    | Space        // \s
    | WordOrDot    // [0-9\.\w]
    | Digit        // [0-9]
    | NotClose     // [^\]]
    | Exactly(c: char)
    | Letter(c: char)   // an upper-case letter, matched in either case

  predicate InClass(k: CharClass, x: char) {
    match k
    case Hex => IsHexDigit(x)
    case Space => IsSpace(x)
    case WordOrDot => IsWordChar(x) || x == '.'
    case Digit => IsDigit(x)
    case NotClose => x != ']'
    case Exactly(c) => x == c
    case Letter(c) => ToUpper(x) == c
  }

  datatype Token = One(k: CharClass) | Many(k: CharClass)

  function Concat(ps: seq<string>): string
    decreases |ps|
  {
    if ps == [] then "" else ps[0] + Concat(ps[1..])
  }

  /** The text `piece` is what token `t` may match. */
  predicate Fits(t: Token, piece: string) {
    match t
    case One(k) => |piece| == 1 && InClass(k, piece[0])
    case Many(k) => |piece| >= 1 && forall x :: 0 <= x < |piece| ==> InClass(k, piece[x])
  }

  /** `ps` splits a text into one piece per token, each fitting its token. */
  predicate Decomposes(toks: seq<Token>, ps: seq<string>) {
    |ps| == |toks| && forall i :: 0 <= i < |toks| ==> Fits(toks[i], ps[i])
  }

  /** No character of class `next` could extend a run of class `k`. */
  predicate Stops(k: CharClass, next: CharClass) {
    forall x: char :: InClass(next, x) ==> !InClass(k, x)
  }

  function Head(t: Token): CharClass { t.k }

  /** Every `c+` is followed by a token that stops it; the pattern does not end in one. */
  predicate Deterministic(toks: seq<Token>) {
    forall i :: 0 <= i < |toks| && toks[i].Many? ==> i + 1 < |toks| && Stops(toks[i].k, Head(toks[i + 1]))
  }

  /** The end of the run of class `k` that starts at `p`. */
  function RunEnd(s: string, p: nat, k: CharClass): (e: nat)
    requires p <= |s|
    ensures p <= e <= |s|
    ensures forall x :: p <= x < e ==> InClass(k, s[x])
    ensures e == |s| || !InClass(k, s[e])
    decreases |s| - p
  {
    if p == |s| || !InClass(k, s[p]) then p else RunEnd(s, p + 1, k)
  }

  /** Where the greedy match of one token starting at `p` ends; `p` itself when the token does not match there. */
  function TokenEnd(t: Token, s: string, p: nat): (e: nat)
    requires p <= |s|
    ensures p <= e <= |s|
    ensures e > p ==> Fits(t, s[p..e])
  {
    match t
    case One(k) => if p < |s| && InClass(k, s[p]) then p + 1 else p
    case Many(k) => RunEnd(s, p, k)
  }

  /** Greedy match of `toks` at position `p` of `s`: the text matched by each token, or `None`. */
  function MatchFrom(toks: seq<Token>, s: string, p: nat): Option<seq<string>>
    requires p <= |s|
    decreases |toks|
  {
    if toks == [] then Some([])
    else
      var e := TokenEnd(toks[0], s, p);
      if e == p then None
      else
        match MatchFrom(toks[1..], s, e)
        case None => None
        case Some(rest) => Some([s[p..e]] + rest)
  }

  /** `re.search`: the leftmost position at or after `from` where the pattern matches, with its pieces. */
  function Search(toks: seq<Token>, s: string, from: nat): (r: Option<(nat, seq<string>)>)
    requires from <= |s|
    ensures r.Some? ==> from <= r.value.0 <= |s| && MatchFrom(toks, s, r.value.0) == Some(r.value.1)
    ensures r.Some? ==> forall q :: from <= q < r.value.0 ==> MatchFrom(toks, s, q).None?
    ensures r.None? ==> forall q :: from <= q <= |s| ==> MatchFrom(toks, s, q).None?
    decreases |s| - from
  {
    match MatchFrom(toks, s, from)
    case Some(ps) => Some((from, ps))
    case None => if from == |s| then None else Search(toks, s, from + 1)
  }

  // ---------------------------------------------------------------------------
  // Properties

  /** What the matcher returns is a decomposition of the text at `p`. */
  lemma {:induction false} MatchSound(toks: seq<Token>, s: string, p: nat)
    requires p <= |s| && MatchFrom(toks, s, p).Some?
    ensures Decomposes(toks, MatchFrom(toks, s, p).value)
    ensures p + |Concat(MatchFrom(toks, s, p).value)| <= |s|
    ensures s[p..p + |Concat(MatchFrom(toks, s, p).value)|] == Concat(MatchFrom(toks, s, p).value)
    decreases |toks|
  {
    if toks != [] {
      var e := TokenEnd(toks[0], s, p);
      var rest := MatchFrom(toks[1..], s, e).value;
      MatchSound(toks[1..], s, e);
      DecomposesCons(toks, s[p..e], rest);
      SliceJoin(s, p, e, Concat(rest));
    }
  }

  lemma DecomposesCons(toks: seq<Token>, piece: string, rest: seq<string>)
    requires |toks| > 0 && Fits(toks[0], piece) && Decomposes(toks[1..], rest)
    ensures Decomposes(toks, [piece] + rest) && ([piece] + rest)[1..] == rest
  {
    var ps := [piece] + rest;
    forall i | 0 <= i < |toks| ensures Fits(toks[i], ps[i]) {
      if i > 0 { assert toks[i] == toks[1..][i - 1] && ps[i] == rest[i - 1]; }
    }
    assert ps[1..] == rest;
  }

  /** A slice that matches `t` right after `e` extends the slice ending at `e`. */
  lemma SliceJoin(s: string, p: nat, e: nat, t: string)
    requires p <= e && e + |t| <= |s| && s[e..e + |t|] == t
    ensures s[p..e + |t|] == s[p..e] + t
  {
  }

  /**
   * For a deterministic pattern, any decomposition of the text at `p` is
   * the one the matcher finds: there is no other way to match.
   */
  lemma {:induction false} MatchComplete(toks: seq<Token>, ps: seq<string>, s: string, p: nat)
    requires Deterministic(toks) && Decomposes(toks, ps)
    requires p + |Concat(ps)| <= |s| && s[p..p + |Concat(ps)|] == Concat(ps)
    ensures MatchFrom(toks, s, p) == Some(ps)
    decreases |toks|
  {
    if toks != [] {
      var piece, rest := ps[0], ps[1..];
      var e := p + |piece|;
      assert Concat(ps) == piece + Concat(rest);
      assert s[p..e] == piece by {
        assert s[p..e] == s[p..p + |Concat(ps)|][..|piece|];
      }
      assert s[e..e + |Concat(rest)|] == Concat(rest) by {
        assert s[e..e + |Concat(rest)|] == s[p..p + |Concat(ps)|][|piece|..];
      }
      assert Fits(toks[0], piece);
      match toks[0] {
        case One(k) =>
          assert s[p] == piece[0];
        case Many(k) =>
          forall x | p <= x < e ensures InClass(k, s[x]) {
            assert s[x] == piece[x - p];
          }
          assert Fits(toks[1], rest[0]);
          if e < |s| {
            assert Concat(rest) == rest[0] + Concat(rest[1..]);
            assert s[e] == rest[0][0];
            assert InClass(Head(toks[1]), s[e]);
          }
          RunEndIs(s, p, e, k);
      }
      assert Deterministic(toks[1..]) by {
        forall i | 0 <= i < |toks[1..]| && toks[1..][i].Many?
          ensures i + 1 < |toks[1..]| && Stops(toks[1..][i].k, Head(toks[1..][i + 1]))
        {
          assert toks[1..][i] == toks[i + 1];
        }
      }
      assert Decomposes(toks[1..], rest) by {
        forall i | 0 <= i < |rest| ensures Fits(toks[1..][i], rest[i]) {
          assert toks[1..][i] == toks[i + 1] && rest[i] == ps[i + 1];
        }
      }
      MatchComplete(toks[1..], rest, s, e);
      assert ps == [s[p..e]] + rest;
    }
  }

  /** A run of class `k` from `p` to a character outside `k` (or the end) is what `RunEnd` finds. */
  lemma RunEndIs(s: string, p: nat, e: nat, k: CharClass)
    requires p <= e <= |s|
    requires forall x :: p <= x < e ==> InClass(k, s[x])
    requires e == |s| || !InClass(k, s[e])
    ensures RunEnd(s, p, k) == e
    decreases e - p
  {
    if p < e { RunEndIs(s, p + 1, e, k); }
  }

  /** A pattern that starts with the literal `c` matches nowhere in text that does not contain `c`. */
  lemma NoMatchWithout(toks: seq<Token>, c: char, s: string, from: nat, to: nat)
    requires |toks| > 0 && toks[0] == One(Exactly(c))
    requires from <= to <= |s|
    requires forall x :: from <= x < to ==> s[x] != c
    ensures forall q :: from <= q < to ==> MatchFrom(toks, s, q).None?
  {
  }

  /**
   * When nothing between `from` and `p` can start a match, and a match
   * starts at `p`, `re.search` finds it there.
   */
  lemma {:induction false} SearchFinds(toks: seq<Token>, s: string, from: nat, p: nat, ps: seq<string>)
    requires from <= p <= |s| && MatchFrom(toks, s, p) == Some(ps)
    requires forall q :: from <= q < p ==> MatchFrom(toks, s, q).None?
    ensures Search(toks, s, from) == Some((p, ps))
    decreases p - from
  {
    if from < p {
      SearchFinds(toks, s, from + 1, p, ps);
    }
  }
}
