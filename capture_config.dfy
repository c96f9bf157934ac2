/** The capture configurations the recorder service tries, and in which order.

    A candidate fixes five capture parameters. The service tries every
    combination of the five preference lists below in lexicographic order
    (source slowest, channel count fastest): 2 x 2 x 2 x 2 x 2 = 32 candidates.
    The encoder list is not tied to the container format, so mismatched
    format/encoder pairs are tried too. */
module CaptureConfig {
  import opened Wrappers

  datatype AudioSource = VoiceCall | Mic
  datatype OutputFormat = OutputAmrWb | OutputAmrNb
  datatype AudioEncoder = EncoderAmrWb | EncoderAmrNb

  datatype Candidate = Candidate(
    source: AudioSource, format: OutputFormat, encoder: AudioEncoder,
    sampleRate: int, channels: int)

  // The five preference lists, best first.
  const Sources: seq<AudioSource> := [VoiceCall, Mic]
  const Formats: seq<OutputFormat> := [OutputAmrWb, OutputAmrNb]
  const Encoders: seq<AudioEncoder> := [EncoderAmrWb, EncoderAmrNb]
  const SampleRates: seq<int> := [16000, 8000]
  const ChannelCounts: seq<int> := [2, 1]

  /** A configuration is drawn from the five lists. */
  predicate InProduct(c: Candidate) {
    c.source in Sources && c.format in Formats && c.encoder in Encoders &&
    c.sampleRate in SampleRates && c.channels in ChannelCounts
  }

  // Position of each parameter in its preference list (0 is preferred).
  function SourceRank(s: AudioSource): nat { if s == VoiceCall then 0 else 1 }
  function FormatRank(f: OutputFormat): nat { if f == OutputAmrWb then 0 else 1 }
  function EncoderRank(e: AudioEncoder): nat { if e == EncoderAmrWb then 0 else 1 }
  function RateRank(r: int): nat { if r == 16000 then 0 else 1 }
  function ChannelRank(n: int): nat { if n == 2 then 0 else 1 }

  /** `a` is tried before `b`: the lexicographic order of the preference ranks. */
  predicate Precedes(a: Candidate, b: Candidate) {
    SourceRank(a.source) < SourceRank(b.source) ||
    (a.source == b.source &&
      (FormatRank(a.format) < FormatRank(b.format) ||
      (a.format == b.format &&
        (EncoderRank(a.encoder) < EncoderRank(b.encoder) ||
        (a.encoder == b.encoder &&
          (RateRank(a.sampleRate) < RateRank(b.sampleRate) ||
          (a.sampleRate == b.sampleRate && ChannelRank(a.channels) < ChannelRank(b.channels))))))))
  }

  /** The candidate the five nested loops build at the given list indices. */
  function CandidateOf(si: nat, fi: nat, ei: nat, ri: nat, ci: nat): Candidate
    requires si < 2 && fi < 2 && ei < 2 && ri < 2 && ci < 2
  {
    Candidate(Sources[si], Formats[fi], Encoders[ei], SampleRates[ri], ChannelCounts[ci])
  }

  /** The probe order: the five binary digits of a position, most
      significant first, select the parameters' list indices. */
  function Candidates(): (r: seq<Candidate>)
    ensures |r| == 32
  {
    seq(32, k requires 0 <= k < 32 =>
      var si := if k < 16 then 0 else 1;
      var fi := if k - 16 * si < 8 then 0 else 1;
      var ei := if k - 16 * si - 8 * fi < 4 then 0 else 1;
      var ri := if k - 16 * si - 8 * fi - 4 * ei < 2 then 0 else 1;
      CandidateOf(si, fi, ei, ri, k - 16 * si - 8 * fi - 4 * ei - 2 * ri))
  }

  /** Where a configuration sits in the probe order. */
  function Position(c: Candidate): nat {
    16 * SourceRank(c.source) + 8 * FormatRank(c.format) + 4 * EncoderRank(c.encoder) +
    2 * RateRank(c.sampleRate) + ChannelRank(c.channels)
  }

  /** The candidate built from the loop indices of the five nested loops. */
  lemma CandidateOfIndices(si: nat, fi: nat, ei: nat, ri: nat, ci: nat)
    requires si < 2 && fi < 2 && ei < 2 && ri < 2 && ci < 2
    ensures Candidates()[16 * si + 8 * fi + 4 * ei + 2 * ri + ci] == CandidateOf(si, fi, ei, ri, ci)
  {
  }

  /** The loops' attempts grow by one entry of the order at a time: the
      prefix ending at given indices is the one before them plus the
      candidate built there. */
  lemma AttemptsExtend(si: nat, fi: nat, ei: nat, ri: nat, ci: nat)
    requires si < 2 && fi < 2 && ei < 2 && ri < 2 && ci < 2
    ensures var n := 16 * si + 8 * fi + 4 * ei + 2 * ri + ci;
      Candidates()[..n + 1] == Candidates()[..n] + [CandidateOf(si, fi, ei, ri, ci)]
  {
    var n := 16 * si + 8 * fi + 4 * ei + 2 * ri + ci;
    CandidateOfIndices(si, fi, ei, ri, ci);
    assert Candidates()[..n + 1] == Candidates()[..n] + [Candidates()[n]];
  }

  /** The loop indices at which the `k`-th candidate is built. */
  lemma IndicesOf(k: nat) returns (si: nat, fi: nat, ei: nat, ri: nat, ci: nat)
    requires k < 32
    ensures si < 2 && fi < 2 && ei < 2 && ri < 2 && ci < 2
    ensures k == 16 * si + 8 * fi + 4 * ei + 2 * ri + ci
    ensures Candidates()[k] == CandidateOf(si, fi, ei, ri, ci)
  {
    si := if k < 16 then 0 else 1;
    fi := if k - 16 * si < 8 then 0 else 1;
    ei := if k - 16 * si - 8 * fi < 4 then 0 else 1;
    ri := if k - 16 * si - 8 * fi - 4 * ei < 2 then 0 else 1;
    ci := k - 16 * si - 8 * fi - 4 * ei - 2 * ri;
  }

  /** Every candidate comes from the product and sits at its own position. */
  lemma CandidateAtPosition(k: nat)
    requires k < 32
    ensures InProduct(Candidates()[k]) && Position(Candidates()[k]) == k
  {
    var si, fi, ei, ri, ci := IndicesOf(k);
    RanksOfIndices(si, fi, ei, ri, ci);
  }

  /** Each list's entry at index `i` has rank `i`. */
  lemma RanksOfIndices(si: nat, fi: nat, ei: nat, ri: nat, ci: nat)
    requires si < 2 && fi < 2 && ei < 2 && ri < 2 && ci < 2
    ensures SourceRank(Sources[si]) == si && FormatRank(Formats[fi]) == fi
    ensures EncoderRank(Encoders[ei]) == ei && RateRank(SampleRates[ri]) == ri
    ensures ChannelRank(ChannelCounts[ci]) == ci
  {
  }

  /** A lower position means an earlier place in the lexicographic order. */
  lemma PositionOrder(a: Candidate, b: Candidate)
    requires InProduct(a) && InProduct(b) && Position(a) < Position(b)
    ensures Precedes(a, b)
  {
  }

  /** The probe order lists the product strictly in lexicographic order
      (so without repetition) and misses no combination. */
  lemma CandidatesAreOrderedProduct()
    ensures forall k :: 0 <= k < 32 ==> InProduct(Candidates()[k])
    ensures forall i, j :: 0 <= i < j < 32 ==> Precedes(Candidates()[i], Candidates()[j])
    ensures forall c :: InProduct(c) ==> c in Candidates()
  {
    forall k | 0 <= k < 32 ensures InProduct(Candidates()[k]) {
      CandidateAtPosition(k);
    }
    forall i, j | 0 <= i < j < 32 ensures Precedes(Candidates()[i], Candidates()[j]) {
      CandidateAtPosition(i);
      CandidateAtPosition(j);
      PositionOrder(Candidates()[i], Candidates()[j]);
    }
    forall c | InProduct(c) ensures c in Candidates() {
      PositionOfProduct(c);
    }
  }

  /** A configuration from the product sits at its own position. */
  lemma PositionOfProduct(c: Candidate)
    requires InProduct(c)
    ensures Position(c) < 32 && Candidates()[Position(c)] == c
  {
    CandidateOfIndices(SourceRank(c.source), FormatRank(c.format), EncoderRank(c.encoder),
                       RateRank(c.sampleRate), ChannelRank(c.channels));
  }

  /** The first position of `order`, at or after `from`, whose candidate the device accepts. */
  function FirstAccepted(accepted: set<Candidate>, order: seq<Candidate>, from: nat): (r: Option<nat>)
    requires from <= |order|
    decreases |order| - from
    ensures r.Some? ==> from <= r.value < |order|
  {
    if from == |order| then None
    else if order[from] in accepted then Some(from)
    else FirstAccepted(accepted, order, from + 1)
  }

  /** `FirstAccepted` finds the first accepted position from `from` on, or
      reports that there is none. */
  lemma {:induction false} FirstAcceptedIsFirst(accepted: set<Candidate>, order: seq<Candidate>, from: nat)
    requires from <= |order|
    decreases |order| - from
    ensures FirstAccepted(accepted, order, from).Some? ==>
      order[FirstAccepted(accepted, order, from).value] in accepted &&
      forall j :: from <= j < FirstAccepted(accepted, order, from).value ==> order[j] !in accepted
    ensures FirstAccepted(accepted, order, from).None? ==>
      forall j :: from <= j < |order| ==> order[j] !in accepted
  {
    if from < |order| && order[from] !in accepted {
      FirstAcceptedIsFirst(accepted, order, from + 1);
    }
  }

  /** The configuration the probe settles on, if any. */
  function ProbeWinner(accepted: set<Candidate>): Option<Candidate> {
    match FirstAccepted(accepted, Candidates(), 0)
    case Some(k) => Some(Candidates()[k])
    case None => None
  }

  /** The configurations the probe tries, in order. */
  function ProbeAttempts(accepted: set<Candidate>): seq<Candidate> {
    match FirstAccepted(accepted, Candidates(), 0)
    case Some(k) => Candidates()[..k + 1]
    case None => Candidates()
  }

  /** The probe finds a winner exactly when the device accepts some
      candidate; the winner is accepted and is one of the candidates. */
  lemma ProbeWinnerSpec(accepted: set<Candidate>)
    ensures ProbeWinner(accepted).Some? <==> exists k :: 0 <= k < 32 && Candidates()[k] in accepted
    ensures ProbeWinner(accepted).Some? ==>
      ProbeWinner(accepted).value in accepted && InProduct(ProbeWinner(accepted).value)
  {
    FirstAcceptedIsFirst(accepted, Candidates(), 0);
    match FirstAccepted(accepted, Candidates(), 0)
    case Some(k) =>
      CandidateAtPosition(k);
    case None =>
  }

  /** The attempts are a prefix of the order whose every candidate but the
      last is rejected; the last is the winner when there is one, and
      otherwise all 32 were tried and none is accepted. */
  lemma ProbeAttemptsSpec(accepted: set<Candidate>)
    ensures var log := ProbeAttempts(accepted);
      1 <= |log| <= 32 && log == Candidates()[..|log|] &&
      (forall j :: 0 <= j < |log| - 1 ==> log[j] !in accepted) &&
      (ProbeWinner(accepted).Some? ==> log[|log| - 1] == ProbeWinner(accepted).value) &&
      (ProbeWinner(accepted).None? ==> log == Candidates() && forall c :: c in Candidates() ==> c !in accepted)
  {
    FirstAcceptedIsFirst(accepted, Candidates(), 0);
    match FirstAccepted(accepted, Candidates(), 0)
    case Some(k) =>
    case None =>
  }

  /** The winner is the least accepted configuration of the product in the
      lexicographic order of the preference lists. */
  lemma WinnerIsLeastAccepted(accepted: set<Candidate>)
    ensures ProbeWinner(accepted).Some? ==>
      forall c :: InProduct(c) && c in accepted && c != ProbeWinner(accepted).value ==>
        Precedes(ProbeWinner(accepted).value, c)
  {
    FirstAcceptedIsFirst(accepted, Candidates(), 0);
    if FirstAccepted(accepted, Candidates(), 0).Some? {
      var k := FirstAccepted(accepted, Candidates(), 0).value;
      var w := Candidates()[k];
      forall c | InProduct(c) && c in accepted && c != w ensures Precedes(w, c) {
        PositionOfProduct(c);
        CandidateAtPosition(k);
        assert k < Position(c);
        PositionOrder(w, c);
      }
    }
  }

  /** The first accepted candidate at position `k` is the probe's winner. */
  lemma FirstAcceptedAt(accepted: set<Candidate>, k: nat)
    requires k < 32 && Candidates()[k] in accepted
    requires forall j :: 0 <= j < k ==> Candidates()[j] !in accepted
    ensures ProbeWinner(accepted) == Some(Candidates()[k])
    ensures ProbeAttempts(accepted) == Candidates()[..k + 1]
  {
    FirstAcceptedIsFirst(accepted, Candidates(), 0);
  }

  /** With every candidate rejected the probe tries them all. */
  lemma NoneAccepted(accepted: set<Candidate>)
    requires forall j :: 0 <= j < 32 ==> Candidates()[j] !in accepted
    ensures ProbeWinner(accepted) == None
    ensures ProbeAttempts(accepted) == Candidates()
  {
    FirstAcceptedIsFirst(accepted, Candidates(), 0);
  }

  /** An attempt log that is a prefix of the order, rejected up to its
      accepted last entry, is the probe's. */
  lemma AcceptedAfterRejected(accepted: set<Candidate>, tried: seq<Candidate>)
    requires 0 < |tried| <= 32 && tried == Candidates()[..|tried|]
    requires forall j :: 0 <= j < |tried| - 1 ==> tried[j] !in accepted
    requires tried[|tried| - 1] in accepted
    ensures ProbeWinner(accepted) == Some(tried[|tried| - 1])
    ensures ProbeAttempts(accepted) == tried
  {
    FirstAcceptedAt(accepted, |tried| - 1);
  }

  /** The whole order, all rejected, is the probe's attempt log. */
  lemma NoneAcceptedIn(accepted: set<Candidate>, tried: seq<Candidate>)
    requires tried == Candidates()
    requires forall j :: 0 <= j < 32 ==> tried[j] !in accepted
    ensures ProbeWinner(accepted) == None
    ensures ProbeAttempts(accepted) == tried
  {
    NoneAccepted(accepted);
  }

  /** When the device accepts the preferred configuration, nothing else is tried. */
  lemma PreferredFirst(accepted: set<Candidate>)
    requires Candidate(VoiceCall, OutputAmrWb, EncoderAmrWb, 16000, 2) in accepted
    ensures ProbeAttempts(accepted) == [Candidate(VoiceCall, OutputAmrWb, EncoderAmrWb, 16000, 2)]
    ensures ProbeWinner(accepted) == Some(Candidate(VoiceCall, OutputAmrWb, EncoderAmrWb, 16000, 2))
  {
    CandidateOfIndices(0, 0, 0, 0, 0);
  }
}
