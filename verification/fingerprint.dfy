/** Fingerprint decisions of checador/fingerprint.py: the quality score of an
    extracted `.xyt` file and 1:N identification over a gallery. The NBIS
    programs (mindtct, bozorth3) are oracles: the model receives what they
    produced, not how. */
module Fingerprint {
  import opened Options
  import opened Text
  import opened Config

  type TemplateId = int

  // ---------------------------------------------------------------------
  // Feature extraction and quality

  /** A line of a `.xyt` file is a minutia when it is not blank after
      stripping and its unstripped text does not begin with `#`. An indented
      `  # ...` line therefore counts. */
  predicate IsMinutiaLine(line: string) {
    Strip(line) != [] && !(|line| > 0 && line[0] == '#')
  }

  /** The list `_calculate_quality` builds: the stripped minutia lines, in
      file order. */
  function MinutiaLines(lines: seq<string>): seq<string> {
    if |lines| == 0 then []
    else (if IsMinutiaLine(lines[0]) then [Strip(lines[0])] else []) + MinutiaLines(lines[1..])
  }

  /** `_calculate_quality`: the number of minutia lines, or 0 when the file
      cannot be read (`None`). */
  function CalculateQuality(contents: Option<seq<string>>): (q: nat)
    ensures contents.None? ==> q == 0
    ensures contents.Some? ==> q <= |contents.value|
    ensures contents.Some? && (forall i :: 0 <= i < |contents.value| ==> IsMinutiaLine(contents.value[i]))
            ==> q == |contents.value|
  {
    match contents
    case None => 0
    case Some(lines) => MinutiaLinesBound(lines); |MinutiaLines(lines)|
  }

  lemma {:induction false} MinutiaLinesBound(lines: seq<string>)
    ensures |MinutiaLines(lines)| <= |lines|
    ensures (forall i :: 0 <= i < |lines| ==> IsMinutiaLine(lines[i])) ==> |MinutiaLines(lines)| == |lines|
    ensures forall k :: 0 <= k < |MinutiaLines(lines)| ==> MinutiaLines(lines)[k] != []
    decreases |lines|
  {
    if |lines| > 0 {
      MinutiaLinesBound(lines[1..]);
    }
  }

  /** Quality is additive over a file split in two. */
  lemma {:induction false} QualityAdditive(a: seq<string>, b: seq<string>)
    ensures CalculateQuality(Some(a + b)) == CalculateQuality(Some(a)) + CalculateQuality(Some(b))
    decreases |a|
  {
    if |a| == 0 {
      assert a + b == b;
    } else {
      assert (a + b)[1..] == a[1..] + b;
      QualityAdditive(a[1..], b);
    }
  }

  /** A one-line file scores 1 exactly when that line is a minutia; with
      additivity this fixes the quality of every file. */
  lemma QualityOfOneLine(l: string)
    ensures CalculateQuality(Some([l])) == if IsMinutiaLine(l) then 1 else 0
  {
    assert [l][1..] == [];
    assert MinutiaLines([l]) == (if IsMinutiaLine(l) then [Strip(l)] else []) + MinutiaLines([]);
  }

  /** Comment lines and whitespace-only lines add nothing; an indented
      comment is a minutia line because `startswith` sees the unstripped
      text. */
  lemma QualityOfLineKinds(line: string)
    ensures |line| > 0 && line[0] == '#' ==> !IsMinutiaLine(line)
    ensures IsBlank(line) ==> !IsMinutiaLine(line)
    ensures |line| > 0 && line[0] != '#' && !IsBlank(line) ==> IsMinutiaLine(line)
  {
    StripEmptyIffBlank(line);
  }

  /** What happens when mindtct is run on an image: it exits with a return
      code after (maybe) writing the `.xyt` file, times out, or the call
      raises. `contents` is `None` when the file exists but cannot be read. */
  datatype XytOutput = NotCreated | Created(contents: Option<seq<string>>)
  datatype MindtctRun = Exited(returnCode: int, xyt: XytOutput) | TimedOut | Raised

  /** `extract_features`' return triple `(success, xyt_path, quality)`. */
  datatype Extraction = Extraction(success: bool, xytPath: Option<string>, quality: int)

  /** `extract_features`: succeeds only when mindtct exits with 0 and the
      `.xyt` file exists; every failure path returns `(False, None, 0)`. */
  function ExtractFeatures(xytPath: string, run: MindtctRun): (r: Extraction)
    ensures r.success <==> run.Exited? && run.returnCode == 0 && run.xyt.Created?
    ensures !r.success ==> r == Extraction(false, None, 0)
    ensures r.success ==> r.xytPath == Some(xytPath) && r.quality == CalculateQuality(run.xyt.contents)
    ensures r.quality >= 0
  {
    match run
    case Exited(code, xyt) =>
      if code != 0 then Extraction(false, None, 0)
      else if xyt.NotCreated? then Extraction(false, None, 0)
      else Extraction(true, Some(xytPath), CalculateQuality(xyt.contents))
    case TimedOut => Extraction(false, None, 0)
    case Raised => Extraction(false, None, 0)
  }

  /** What happens when bozorth3 is run on a probe and a gallery template:
      `parsed` is `int(stdout.strip())`, or `None` when that raises. */
  datatype BozorthRun = Finished(returnCode: int, parsed: Option<int>) | Expired | Crashed

  /** `match_fingerprints`: a score only when bozorth3 exits with 0 and
      prints an integer. */
  function MatchFingerprints(run: BozorthRun): (r: Option<int>)
    ensures r.Some? <==> run.Finished? && run.returnCode == 0 && run.parsed.Some?
    ensures r.Some? ==> r == run.parsed
  {
    match run
    case Finished(code, parsed) => if code != 0 then None else parsed
    case Expired => None
    case Crashed => None
  }

  // ---------------------------------------------------------------------
  // 1:N identification

  /** A gallery template together with the outcome of matching the probe
      against it (`None`: the match failed). */
  datatype Candidate = Candidate(templateId: TemplateId, score: Option<int>)
  type Gallery = seq<Candidate>

  /** The scan state `(best_score, best_template_id)`. */
  datatype Best = Best(score: int, templateId: Option<TemplateId>)

  /** What `identify` returns when the best score clears the threshold. The
      id is `None` when no score was positive and the threshold is <= 0. */
  datatype Match = Match(templateId: Option<TemplateId>, score: int)

  /** One iteration of the scan: a failed match is skipped, and only a
      strictly greater score replaces the best so far. */
  function Consider(b: Best, c: Candidate): Best {
    match c.score
    case None => b
    case Some(s) => if s > b.score then Best(s, Some(c.templateId)) else b
  }

  /** The scan over the gallery in order, from `best_score = 0` and no id. */
  function Scan(g: Gallery): Best
    decreases |g|
  {
    if |g| == 0 then Best(0, None) else Consider(Scan(g[..|g| - 1]), g[|g| - 1])
  }

  /** Reference for the best score: the largest successful score, or 0 when
      none is positive, computed independently of the scan order. */
  function MaxScore(g: Gallery): nat
    decreases |g|
  {
    if |g| == 0 then 0
    else
      var rest := MaxScore(g[1..]);
      if g[0].score.Some? && g[0].score.value > rest then g[0].score.value else rest
  }

  /** `m` is the best score of `g`: non-negative, at least every successful
      score, and either 0 or attained by some template. */
  ghost predicate IsBestScore(g: Gallery, m: int) {
    && m >= 0
    && (forall c :: c in g && c.score.Some? ==> c.score.value <= m)
    && (m == 0 || exists c :: c in g && c.score == Some(m))
  }

  /** Index `i` is the first template in gallery order whose score is `m`. */
  ghost predicate FirstToReach(g: Gallery, i: int, m: int) {
    && 0 <= i < |g|
    && g[i].score == Some(m)
    && forall j :: 0 <= j < i ==> g[j].score != Some(m)
  }

  lemma {:induction false} MaxScoreIsBest(g: Gallery)
    ensures IsBestScore(g, MaxScore(g))
    decreases |g|
  {
    if |g| > 0 {
      MaxScoreIsBest(g[1..]);
      assert g == [g[0]] + g[1..];
      forall c | c in g
        ensures c == g[0] || c in g[1..]
      {
      }
      if MaxScore(g) != 0 && MaxScore(g) == MaxScore(g[1..]) {
        var c :| c in g[1..] && c.score == Some(MaxScore(g));
        assert c in g;
      }
    }
  }

  /** There is only one best score. */
  lemma BestScoreUnique(g: Gallery, m1: int, m2: int)
    requires IsBestScore(g, m1) && IsBestScore(g, m2)
    ensures m1 == m2
  {
    if m1 != 0 {
      var c :| c in g && c.score == Some(m1);
      assert m1 <= m2;
    }
    if m2 != 0 {
      var c :| c in g && c.score == Some(m2);
      assert m2 <= m1;
    }
  }

  /** The scan finds the best score, holds no id exactly when that score is
      0, and otherwise holds the id of the FIRST template reaching it. */
  lemma {:induction false} ScanFindsFirstBest(g: Gallery)
    ensures IsBestScore(g, Scan(g).score)
    ensures Scan(g).templateId.None? <==> Scan(g).score == 0
    ensures Scan(g).templateId.Some? ==>
      exists i :: FirstToReach(g, i, Scan(g).score) && g[i].templateId == Scan(g).templateId.value
    decreases |g|
  {
    if |g| > 0 {
      var p := g[..|g| - 1];
      var c := g[|g| - 1];
      ScanFindsFirstBest(p);
      var b := Scan(p);
      assert g == p + [c];
      forall d | d in g
        ensures d in p || d == c
      {
      }
      if c.score.Some? && c.score.value > b.score {
        assert FirstToReach(g, |g| - 1, c.score.value) by {
          forall j | 0 <= j < |g| - 1
            ensures g[j].score != Some(c.score.value)
          {
            assert g[j] in p;
          }
        }
      } else {
        if b.templateId.Some? {
          var i :| FirstToReach(p, i, b.score) && p[i].templateId == b.templateId.value;
          assert FirstToReach(g, i, b.score);
        }
        if b.score != 0 {
          var d :| d in p && d.score == Some(b.score);
          assert d in g;
        }
      }
    }
  }

  /** `identify`: the best scan result when its score is at least
      `match_threshold` (ties at the threshold are accepted), else `None`. */
  function Identify(g: Gallery, threshold: int): (r: Option<Match>)
    ensures r.Some? <==> MaxScore(g) >= threshold
    ensures r.Some? ==> r.value.score == MaxScore(g)
    ensures r.Some? && r.value.templateId.Some? ==>
      r.value.score > 0 &&
      exists i :: FirstToReach(g, i, r.value.score) && g[i].templateId == r.value.templateId.value
    ensures r.Some? && r.value.templateId.None? ==>
      r.value.score == 0 && forall i :: 0 <= i < |g| && g[i].score.Some? ==> g[i].score.value <= 0
    ensures threshold > 0 && r.Some? ==> r.value.templateId.Some?
    ensures threshold > 0 && (forall i :: 0 <= i < |g| && g[i].score.Some? ==> g[i].score.value < threshold)
            ==> r.None?
  {
    ScanFindsFirstBest(g);
    MaxScoreIsBest(g);
    BestScoreUnique(g, Scan(g).score, MaxScore(g));
    var b := Scan(g);
    assert forall i :: 0 <= i < |g| ==> g[i] in g;
    if b.score >= threshold then Some(Match(b.templateId, b.score)) else None
  }

  /** The templates whose match succeeded, in gallery order. */
  function Successful(g: Gallery): (s: Gallery)
    decreases |g|
  {
    if |g| == 0 then []
    else Successful(g[..|g| - 1]) + (if g[|g| - 1].score.Some? then [g[|g| - 1]] else [])
  }

  lemma {:induction false} ScanAppend(g: Gallery, c: Candidate)
    ensures Scan(g + [c]) == Consider(Scan(g), c)
  {
    assert (g + [c])[..|g|] == g;
  }

  /** Failed matches never influence the scan: it ends in the same state
      over the successful templates alone. */
  lemma {:induction false} ScanSkipsFailures(g: Gallery)
    ensures Scan(Successful(g)) == Scan(g)
    decreases |g|
  {
    if |g| > 0 {
      var p := g[..|g| - 1];
      var c := g[|g| - 1];
      ScanSkipsFailures(p);
      if c.score.Some? {
        ScanAppend(Successful(p), c);
      } else {
        assert Successful(g) == Successful(p);
      }
    }
  }

  /** The identification result depends only on the successful matches. */
  lemma IdentifyIgnoresFailedMatches(g: Gallery, threshold: int)
    ensures Identify(g, threshold) == Identify(Successful(g), threshold)
  {
    ScanSkipsFailures(g);
  }

  /** All templates of `g` scoring `m` carry the same id: no tie on `m`. */
  ghost predicate NoTieAt(g: Gallery, m: int) {
    forall c, d :: c in g && d in g && c.score == Some(m) && d.score == Some(m) ==> c.templateId == d.templateId
  }

  /** Reordering the gallery does not change whether a match is found nor
      its score; the returned id can differ only when several templates tie
      on the best score. */
  lemma IdentifyPermutationInvariant(g1: Gallery, g2: Gallery, threshold: int)
    requires multiset(g1) == multiset(g2)
    ensures Identify(g1, threshold).Some? <==> Identify(g2, threshold).Some?
    ensures Identify(g1, threshold).Some? ==>
      Identify(g1, threshold).value.score == Identify(g2, threshold).value.score
    ensures Identify(g1, threshold).Some? && NoTieAt(g1, Identify(g1, threshold).value.score) ==>
      Identify(g1, threshold) == Identify(g2, threshold)
  {
    MaxScoreIsBest(g1);
    MaxScoreIsBest(g2);
    forall c
      ensures c in g1 <==> c in g2
    {
      assert c in g1 <==> c in multiset(g1);
      assert c in g2 <==> c in multiset(g2);
    }
    assert IsBestScore(g1, MaxScore(g2));
    BestScoreUnique(g1, MaxScore(g1), MaxScore(g2));
    var r1, r2 := Identify(g1, threshold), Identify(g2, threshold);
    if r1.Some? && NoTieAt(g1, r1.value.score) && r1.value.templateId.Some? {
      var i :| FirstToReach(g1, i, r1.value.score) && g1[i].templateId == r1.value.templateId.value;
      var j :| FirstToReach(g2, j, r2.value.score) && g2[j].templateId == r2.value.templateId.value;
      assert g1[i] in g1 && g2[j] in g1;
    }
  }

  /** The gallery `identify` scans: each template id with the outcome of
      running bozorth3 against it. */
  function GalleryOf(ids: seq<TemplateId>, runs: seq<BozorthRun>): (g: Gallery)
    requires |ids| == |runs|
    ensures |g| == |ids|
    ensures forall i :: 0 <= i < |g| ==> g[i] == Candidate(ids[i], MatchFingerprints(runs[i]))
  {
    seq(|ids|, i requires 0 <= i < |ids| => Candidate(ids[i], MatchFingerprints(runs[i])))
  }

  /** Only bozorth3 runs that exited 0 and printed an integer take part:
      when none did, no match is found for a positive threshold, and
      changing the failed runs (how they failed) never changes the result. */
  lemma IdentifyUsesOnlyParsedRuns(ids: seq<TemplateId>, runs1: seq<BozorthRun>, runs2: seq<BozorthRun>,
                                   threshold: int)
    requires |ids| == |runs1| == |runs2|
    requires forall i :: 0 <= i < |ids| && MatchFingerprints(runs1[i]).Some? ==> runs2[i] == runs1[i]
    requires forall i :: 0 <= i < |ids| && MatchFingerprints(runs1[i]).None? ==> MatchFingerprints(runs2[i]).None?
    ensures Identify(GalleryOf(ids, runs1), threshold) == Identify(GalleryOf(ids, runs2), threshold)
    ensures threshold > 0 &&
            (forall i :: 0 <= i < |ids| ==> !(runs1[i].Finished? && runs1[i].returnCode == 0 && runs1[i].parsed.Some?))
            ==> Identify(GalleryOf(ids, runs1), threshold).None?
  {
    assert GalleryOf(ids, runs1) == GalleryOf(ids, runs2);
  }

  /** Two templates tie on 42 above the default threshold of 40: the
      earlier one wins. */
  lemma TieGoesToEarliest()
    ensures Identify([Candidate(7, Some(42)), Candidate(3, Some(42))], DefaultFingerprint.matchThreshold)
            == Some(Match(Some(7), 42))
  {
    var g := [Candidate(7, Some(42)), Candidate(3, Some(42))];
    assert g[..1] == [Candidate(7, Some(42))];
    assert g[..1][..0] == [];
  }
}
