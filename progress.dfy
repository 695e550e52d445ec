/**
 * The progress marker aria2c prints, `[#gid have/total(pct%) CN:n DL:speed
 * ETA:eta]`, as `PROGRESS_RE` reads it, and the keyword scan that declares a
 * download complete.
 */
module Progress {
  import opened Wrappers
  import opened Text
  import opened Pattern

  /**
   * `PROGRESS_RE`, token by token. The seven groups are the tokens at
   * positions 2 (gid), 4 (have), 6 (total), 8 (percent), 15 (connections),
   * 20 (speed) and 26 (eta).
   */
  const ProgressPattern: seq<Token> := [
    One(Exactly('[')), One(Exactly('#')), Many(Hex), Many(Space),
    Many(WordOrDot), One(Exactly('/')), Many(WordOrDot), One(Exactly('(')),
    Many(Digit), One(Exactly('%')), One(Exactly(')')), Many(Space),
    One(Letter('C')), One(Letter('N')), One(Exactly(':')), Many(Digit), Many(Space),
    One(Letter('D')), One(Letter('L')), One(Exactly(':')), Many(WordOrDot), Many(Space),
    One(Letter('E')), One(Letter('T')), One(Letter('A')), One(Exactly(':')), Many(NotClose),
    One(Exactly(']'))
  ]

  /** The seven groups of a marker, as captured. */
  datatype Marker = Marker(gid: string, have: string, total: string, percent: string,
                           connections: string, speed: string, eta: string)

  predicate AllIn(k: CharClass, t: string) {
    t != [] && forall x :: 0 <= x < |t| ==> InClass(k, t[x])
  }

  /** Each group is a non-empty run of its class. */
  predicate WellFormed(m: Marker) {
    AllIn(Hex, m.gid) && AllIn(WordOrDot, m.have) && AllIn(WordOrDot, m.total)
    && AllIn(Digit, m.percent) && AllIn(Digit, m.connections)
    && AllIn(WordOrDot, m.speed) && AllIn(NotClose, m.eta)
  }

  /** `PROGRESS_RE.search(line)`: the groups of the leftmost marker in the line. */
  function FindMarker(line: string): (r: Option<Marker>)
    ensures r.Some? ==> WellFormed(r.value)
  {
    match Search(ProgressPattern, line, 0)
    case None => None
    case Some((p, ps)) =>
      MatchSound(ProgressPattern, line, p);
      FieldsFit(ps);
      Some(Marker(ps[2], ps[4], ps[6], ps[8], ps[15], ps[20], ps[26]))
  }

  lemma FieldsFit(ps: seq<string>)
    requires Decomposes(ProgressPattern, ps)
    ensures WellFormed(Marker(ps[2], ps[4], ps[6], ps[8], ps[15], ps[20], ps[26]))
  {
    assert Fits(ProgressPattern[2], ps[2]) && Fits(ProgressPattern[4], ps[4]);
    assert Fits(ProgressPattern[6], ps[6]) && Fits(ProgressPattern[8], ps[8]);
    assert Fits(ProgressPattern[15], ps[15]) && Fits(ProgressPattern[20], ps[20]);
    assert Fits(ProgressPattern[26], ps[26]);
  }

  /**
   * A marker in aria2c's own layout, `[#gid have/total(pct%) CN:n DL:speed
   * ETA:eta]`, with single spaces and upper-case labels, piece by piece.
   */
  function Pieces(m: Marker): seq<string> {
    ["[", "#", m.gid, " ", m.have, "/", m.total, "(", m.percent, "%", ")", " ",
     "C", "N", ":", m.connections, " ", "D", "L", ":", m.speed, " ", "E", "T", "A", ":", m.eta, "]"]
  }

  function Render(m: Marker): string { Concat(Pieces(m)) }

  /** The case-insensitive keyword test of `_parse_progress`. */
  predicate Completion(line: string) {
    var l := Lower(line);
    Contains(l, "download complete") || Contains(l, "completed") || Contains(l, "download finished")
  }

  // ---------------------------------------------------------------------------
  // Properties

  /** Every run in `PROGRESS_RE` is stopped by the token after it, so the greedy reading is the only one. */
  lemma ProgressDeterministic()
    ensures Deterministic(ProgressPattern)
  {
    assert Stops(Hex, Space);
    assert Stops(Space, WordOrDot);
    assert Stops(WordOrDot, Exactly('/'));
    assert Stops(WordOrDot, Exactly('('));
    assert Stops(Digit, Exactly('%'));
    assert Stops(Space, Letter('C'));
    assert Stops(Digit, Space);
    assert Stops(Space, Letter('D'));
    assert Stops(WordOrDot, Space);
    assert Stops(Space, Letter('E'));
    assert Stops(NotClose, Exactly(']'));
  }

  lemma PiecesFit(m: Marker)
    requires WellFormed(m)
    ensures Decomposes(ProgressPattern, Pieces(m))
  {
  }

  /** A well-formed marker is matched where it stands, piece by piece. */
  lemma MatchRendered(m: Marker, line: string, p: nat)
    requires WellFormed(m)
    requires p + |Render(m)| <= |line| && line[p..p + |Render(m)|] == Render(m)
    ensures MatchFrom(ProgressPattern, line, p) == Some(Pieces(m))
  {
    PiecesFit(m);
    ProgressDeterministic();
    MatchComplete(ProgressPattern, Pieces(m), line, p);
  }

  /**
   * A well-formed marker is found, with exactly its groups, in any line where
   * it follows text without a `[`, whatever comes after it.
   */
  lemma FindRendered(m: Marker, before: string, after: string)
    requires WellFormed(m)
    requires forall x :: 0 <= x < |before| ==> before[x] != '['
    ensures FindMarker(before + Render(m) + after) == Some(m)
  {
    var line := before + Render(m) + after;
    var p := |before|;
    assert line[p..p + |Render(m)|] == Render(m);
    MatchRendered(m, line, p);
    NoMatchWithout(ProgressPattern, '[', line, 0, p);
    SearchFinds(ProgressPattern, line, 0, p, Pieces(m));
  }

  /** A line without `[` carries no marker. */
  lemma NoBracketNoMarker(line: string)
    requires forall x :: 0 <= x < |line| ==> line[x] != '['
    ensures FindMarker(line) == None
  {
    NoMatchWithout(ProgressPattern, '[', line, 0, |line|);
    assert MatchFrom(ProgressPattern, line, |line|).None?;
  }

  /** Any of the three keywords, in any case and anywhere in the line, marks it as a completion. */
  lemma CompletionKeyword(before: string, w: string, after: string)
    requires Lower(w) in ["download complete", "completed", "download finished"]
    ensures Completion(before + w + after)
  {
    LowerAppend(before + w, after);
    LowerAppend(before, w);
    ContainsInside(Lower(before), Lower(w), Lower(after));
  }
}
