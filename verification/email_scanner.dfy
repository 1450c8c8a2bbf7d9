/** The regular expression `\b[\w.+-]+@[\w.-]+\.[A-Za-z]{2,}\b` of
    `extract_emails` (functions.py:98) and the left-to-right, non-overlapping
    search that `re.findall` performs with it (functions.py:101).

    The engine itself is not replicated.  The match it reports at a position
    is characterised instead: the local part is the maximal run of `[\w.+-]`
    (nothing shorter can be followed by `@`); the greedy domain backtracks to
    the LAST `.` inside the `[\w.-]` run whose following letters number two
    or more and are followed by a non-word character; of all the ways the
    pattern can match at a position, that one ends furthest right. */
module EmailScanner {
  import opened Wrappers
  import opened Text

  /** The class `[\w.+-]` of the local part. */
  predicate IsLocalChar(c: char) { IsWordChar(c) || c == '.' || c == '+' || c == '-' }

  /** The class `[\w.-]` of the domain part. */
  predicate IsDomainChar(c: char) { IsWordChar(c) || c == '.' || c == '-' }

  /** `s` splits as local `@` domain `.` tld, with `@` at index `at` and the
      final `.` at index `dot`. */
  predicate Split(s: string, at: int, dot: int)
  {
    && 0 < at && at + 1 < dot && dot + 2 < |s|
    && s[at] == '@' && s[dot] == '.'
    && (forall k | 0 <= k < at :: IsLocalChar(s[k]))
    && (forall k | at < k < dot :: IsDomainChar(s[k]))
    && (forall k | dot < k < |s| :: IsAsciiLetter(s[k]))
  }

  /** `s` as a whole matches `[\w.+-]+@[\w.-]+\.[A-Za-z]{2,}`. */
  predicate MatchesEmailPattern(s: string)
  {
    exists at, dot | 0 <= at < |s| && 0 <= dot < |s| :: Split(s, at, dot)
  }

  predicate WordAt(text: string, k: int)
  {
    0 <= k < |text| && IsWordChar(text[k])
  }

  /** `\b` at position `i` of `text` (positions outside the text count as
      non-word characters). */
  predicate Boundary(text: string, i: int)
  {
    WordAt(text, i - 1) != WordAt(text, i)
  }

  /** The whole pattern, word boundaries included, matches `text[p..e]`. */
  ghost predicate IsMatch(text: string, p: int, e: int)
  {
    0 <= p < e <= |text| && Boundary(text, p) && Boundary(text, e) && MatchesEmailPattern(text[p..e])
  }

  /** The end of the maximal run of `inRun` characters starting at `i`. */
  function RunEnd(text: string, i: nat, inRun: char -> bool): (j: nat)
    requires i <= |text|
    ensures i <= j <= |text|
    ensures forall k | i <= k < j :: inRun(text[k])
    ensures j < |text| ==> !inRun(text[j])
    decreases |text| - i
  {
    if i == |text| || !inRun(text[i]) then i else RunEnd(text, i + 1, inRun)
  }

  lemma RunEndUnique(text: string, i: nat, inRun: char -> bool, j: nat)
    requires i <= j <= |text|
    requires forall k | i <= k < j :: inRun(text[k])
    requires j < |text| ==> !inRun(text[j])
    ensures RunEnd(text, i, inRun) == j
  {
  }

  /** End of the letters that follow the dot at `d`. */
  function TldEnd(text: string, d: nat): nat
    requires d < |text|
  {
    RunEnd(text, d + 1, IsAsciiLetter)
  }

  /** A `.` at `d` can end the domain: two or more letters follow it and then
      a word boundary. */
  predicate TldDot(text: string, d: int)
  {
    0 <= d < |text| && text[d] == '.' && d + 3 <= TldEnd(text, d) && !WordAt(text, TldEnd(text, d))
  }

  /** The greedy domain backtracking: the largest `d` in `(lo, k]` with
      `TldDot(text, d)`. */
  function LastDot(text: string, lo: int, k: int): (r: Option<nat>)
    requires k < |text|
    ensures r.Some? ==> lo < r.value <= k && TldDot(text, r.value)
    ensures r.Some? ==> forall d | r.value < d <= k :: !TldDot(text, d)
    ensures r.None? ==> forall d | lo < d <= k :: !TldDot(text, d)
    decreases k - lo
  {
    if k <= lo then None
    else if TldDot(text, k) then Some(k)
    else LastDot(text, lo, k - 1)
  }

  /** End of the local part that starts at `p`. */
  function LocalEnd(text: string, p: nat): nat
    requires p <= |text|
  {
    RunEnd(text, p, IsLocalChar)
  }

  /** End of the `[\w.-]` run that follows the `@` at `at`. */
  function DomainEnd(text: string, at: nat): nat
    requires at < |text|
  {
    RunEnd(text, at + 1, IsDomainChar)
  }

  /** The pattern can match at `p` with its final dot at `d`. */
  predicate Candidate(text: string, p: nat, d: int)
  {
    && p < |text| && Boundary(text, p)
    && var at := LocalEnd(text, p);
    && p < at < |text| && text[at] == '@'
    && at + 1 < d < DomainEnd(text, at)
    && TldDot(text, d)
  }

  /** Every candidate is a match. */
  lemma CandidateMatches(text: string, p: nat, d: int)
    requires Candidate(text, p, d)
    ensures IsMatch(text, p, TldEnd(text, d))
  {
    var at := LocalEnd(text, p);
    var e := TldEnd(text, d);
    var s := text[p..e];
    assert forall k | 0 <= k < at - p :: IsLocalChar(s[k]) by {
      forall k | 0 <= k < at - p ensures IsLocalChar(s[k]) {
        assert s[k] == text[p + k];
      }
    }
    assert forall k | at - p < k < d - p :: IsDomainChar(s[k]) by {
      forall k | at - p < k < d - p ensures IsDomainChar(s[k]) {
        assert s[k] == text[p + k];
      }
    }
    assert forall k | d - p < k < |s| :: IsAsciiLetter(s[k]) by {
      forall k | d - p < k < |s| ensures IsAsciiLetter(s[k]) {
        assert s[k] == text[p + k];
      }
    }
    assert Split(s, at - p, d - p);
    assert WordAt(text, e - 1);
  }

  /** A split of `text[p..e]`, read in the coordinates of `text`. */
  lemma SplitInText(text: string, p: nat, e: nat, a: nat, b: nat)
    requires p <= e <= |text| && Split(text[p..e], a, b)
    ensures p + a < p + b < e && text[p + a] == '@' && text[p + b] == '.'
    ensures forall k | p <= k < p + a :: IsLocalChar(text[k])
    ensures forall k | p + a < k < p + b :: IsDomainChar(text[k])
    ensures forall k | p + b < k < e :: IsAsciiLetter(text[k])
  {
    var s := text[p..e];
    assert forall k | p <= k < e :: text[k] == s[k - p];
  }

  /** Every match is a candidate: the `@` is where the local run ends, and
      the end is where the letters after the final dot end. */
  lemma MatchIsCandidate(text: string, p: nat, e: int) returns (d: nat)
    requires IsMatch(text, p, e)
    ensures Candidate(text, p, d) && e == TldEnd(text, d)
  {
    var s := text[p..e];
    var a, b :| 0 <= a < |s| && 0 <= b < |s| && Split(s, a, b);
    SplitInText(text, p, e, a, b);
    var at := p + a;
    d := p + b;
    RunEndUnique(text, p, IsLocalChar, at);
    assert d < DomainEnd(text, at);
    assert WordAt(text, e - 1);
    RunEndUnique(text, d + 1, IsAsciiLetter, e);
  }

  /** A later final dot gives a later end. */
  lemma TldEndMonotone(text: string, d1: nat, d2: nat)
    requires TldDot(text, d1) && TldDot(text, d2) && d1 < d2
    ensures TldEnd(text, d1) < TldEnd(text, d2)
  {
    assert !IsAsciiLetter(text[d2]);
  }

  /** The end of the match `re` reports at position `p`, if any. */
  function MatchEnd(text: string, p: nat): (r: Option<nat>)
    ensures r.Some? ==> p < r.value <= |text|
  {
    if p >= |text| || !Boundary(text, p) then None
    else
      var at := LocalEnd(text, p);
      if at == p || at == |text| || text[at] != '@' then None
      else
        match LastDot(text, at + 1, DomainEnd(text, at) - 1)
        case None => None
        case Some(d) => Some(TldEnd(text, d))
  }

  /** When `MatchEnd` reports nothing at `p`, no match starts there. */
  lemma MatchEndComplete(text: string, p: nat)
    ensures MatchEnd(text, p).None? ==> forall e :: !IsMatch(text, p, e)
  {
    if MatchEnd(text, p).None? {
      forall e | IsMatch(text, p, e) ensures false {
        var d := MatchIsCandidate(text, p, e);
      }
    }
  }

  /** When `MatchEnd` reports an end at `p`, the pattern matches there. */
  lemma MatchEndSound(text: string, p: nat)
    ensures MatchEnd(text, p).Some? ==> IsMatch(text, p, MatchEnd(text, p).value)
  {
    if MatchEnd(text, p).Some? {
      var at := LocalEnd(text, p);
      CandidateMatches(text, p, LastDot(text, at + 1, DomainEnd(text, at) - 1).value);
    }
  }

  /** No match at `p` ends further right than the one `MatchEnd` reports:
      the greedy domain gives the longest match. */
  lemma MatchEndLongest(text: string, p: nat, e: int)
    requires IsMatch(text, p, e)
    ensures MatchEnd(text, p).Some? && e <= MatchEnd(text, p).value
  {
    MatchEndComplete(text, p);
    var at := LocalEnd(text, p);
    var d := LastDot(text, at + 1, DomainEnd(text, at) - 1).value;
    var d' := MatchIsCandidate(text, p, e);
    if d' < d {
      TldEndMonotone(text, d', d);
    }
  }

  /** The `(start, end)` spans of `re.findall` from position `p` on: try each
      position in turn, take the match reported there and resume at its end.
      The spans are inside the text, non-empty, and in increasing,
      non-overlapping order. */
  function Scan(text: string, p: nat): (spans: seq<(nat, nat)>)
    requires p <= |text|
    ensures forall i | 0 <= i < |spans| :: p <= spans[i].0 < spans[i].1 <= |text|
    ensures forall i | 0 < i < |spans| :: spans[i - 1].1 <= spans[i].0
    decreases |text| - p
  {
    if p == |text| then []
    else
      match MatchEnd(text, p)
      case Some(e) => [(p, e)] + Scan(text, e)
      case None => Scan(text, p + 1)
  }

  /** Every span of the scan is the match `MatchEnd` reports at its start. */
  lemma {:induction false} ScanReported(text: string, p: nat, i: nat)
    requires p <= |text| && i < |Scan(text, p)|
    ensures MatchEnd(text, Scan(text, p)[i].0) == Some(Scan(text, p)[i].1)
    decreases |text| - p
  {
    if p < |text| {
      match MatchEnd(text, p)
      case Some(e) =>
        if i > 0 {
          ScanReported(text, e, i - 1);
          assert Scan(text, p)[i] == Scan(text, e)[i - 1];
        }
      case None =>
        ScanReported(text, p + 1, i);
    }
  }

  /** Position `k` lies inside one of the spans. */
  ghost predicate Covered(spans: seq<(nat, nat)>, k: int)
  {
    exists i | 0 <= i < |spans| :: spans[i].0 <= k < spans[i].1
  }

  /** The scan skips no match: every position that no reported span covers
      is one where the pattern cannot match. */
  lemma {:induction false} ScanMissesNothing(text: string, p: nat, k: int)
    requires p <= k < |text|
    requires !Covered(Scan(text, p), k)
    ensures forall e :: !IsMatch(text, k, e)
    decreases |text| - p
  {
    MatchEndComplete(text, p);
    match MatchEnd(text, p)
    case None =>
      if k > p {
        ScanMissesNothing(text, p + 1, k);
      }
    case Some(e) =>
      var spans := Scan(text, p);
      assert spans[0] == (p, e);
      if e <= k {
        var rest := Scan(text, e);
        assert spans == [(p, e)] + rest;
        forall i | 0 <= i < |rest| ensures !(rest[i].0 <= k < rest[i].1) {
          assert spans[i + 1] == rest[i];
        }
        ScanMissesNothing(text, e, k);
      } else {
        assert false;
      }
  }

  /** The strings `re.findall` returns: the text of each span, in order. */
  function FindAll(text: string): (ms: seq<string>)
    ensures forall m | m in ms :: MatchesEmailPattern(m)
  {
    var spans := Scan(text, 0);
    assert forall i | 0 <= i < |spans| :: MatchesEmailPattern(text[spans[i].0..spans[i].1]) by {
      forall i | 0 <= i < |spans| ensures MatchesEmailPattern(text[spans[i].0..spans[i].1]) {
        ScanReported(text, 0, i);
        MatchEndSound(text, spans[i].0);
      }
    }
    seq(|spans|, i requires 0 <= i < |spans| => text[spans[i].0..spans[i].1])
  }

  /** Each match contains an `@`. */
  lemma MatchHasAt(text: string, p: nat, e: int)
    requires IsMatch(text, p, e)
    ensures exists i | p <= i < e :: text[i] == '@'
  {
    var s := text[p..e];
    var a, b :| 0 <= a < |s| && 0 <= b < |s| && Split(s, a, b);
    assert text[p + a] == s[a];
  }
}
