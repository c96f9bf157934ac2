/** The call recorder service: one capture handle, the session state and the
    metadata of the latest recording, driven by four control calls
    (start, stop, is-recording, active recording).

    The capture device is an oracle: `c in accepted` says whether configuring
    the device with candidate `c`, opening the output file and preparing and
    starting capture all succeed. The two permission checks are boolean
    inputs, the filesystem is the set `files` of existing paths, and two ghost
    logs record the configurations tried and the media-scan notifications
    sent. A third ghost log records, for every capture handle the service
    drops, whether it was released first. */
module CallRecorder {
  import opened Wrappers
  import opened FilenamePolicy
  import opened CaptureConfig

  datatype RecorderState = Idle | Recording

  /** The metadata handed back to callers. */
  datatype CallRecording = CallRecording(
    phoneNumber: Option<string>, creationTime: int,
    fileName: string, startRecordingTime: int)

  /** A live capture handle: the configuration it runs with and the file it writes. */
  datatype Capture = Capture(config: Candidate, outputPath: string)

  /** How the device's `stop()` ends: normally, or with an IllegalStateException. */
  datatype StopOutcome = StopOk | StopIllegalState

  /** What became of a capture handle the service let go of. */
  datatype HandleEnd = Released | Abandoned

  /** The two handle ends the implicit or explicit stop can log. */
  function StopEnds(recorder: Option<Capture>, state: RecorderState, outcome: StopOutcome): seq<HandleEnd> {
    if recorder.None? then []
    else if state == Recording && outcome == StopOk then [Released]
    else [Abandoned]
  }

  /** The probe: tries the 32 candidate configurations in order on one
      capture handle and stops at the first the device accepts. Each rejected
      candidate resets the handle and deletes the output file at `path`; the
      accepted one has its file created by prepare(). */
  method ProbeConfigurations(accepted: set<Candidate>, path: string, files: set<string>)
    returns (winner: Option<Candidate>, filesAfter: set<string>, ghost tried: seq<Candidate>)
    ensures winner == ProbeWinner(accepted) && tried == ProbeAttempts(accepted)
    ensures winner.Some? ==> winner.value in accepted && InProduct(winner.value)
    ensures filesAfter == if winner.Some? then files + {path} else files - {path}
  {
    // `n` candidates have been attempted so far, and all of them were rejected
    ghost var n: nat := 0;
    tried := [];
    var fs := files;
    for si := 0 to 2
      invariant n == 16 * si && tried == Candidates()[..n]
      invariant forall j :: 0 <= j < n ==> tried[j] !in accepted
      invariant n == 0 ==> fs == files
      invariant n > 0 ==> fs == files - {path}
    {
      for fi := 0 to 2
        invariant n == 16 * si + 8 * fi && tried == Candidates()[..n]
        invariant forall j :: 0 <= j < n ==> tried[j] !in accepted
        invariant n == 0 ==> fs == files
        invariant n > 0 ==> fs == files - {path}
      {
        for ei := 0 to 2
          invariant n == 16 * si + 8 * fi + 4 * ei && tried == Candidates()[..n]
          invariant forall j :: 0 <= j < n ==> tried[j] !in accepted
          invariant n == 0 ==> fs == files
          invariant n > 0 ==> fs == files - {path}
        {
          for ri := 0 to 2
            invariant n == 16 * si + 8 * fi + 4 * ei + 2 * ri && tried == Candidates()[..n]
            invariant forall j :: 0 <= j < n ==> tried[j] !in accepted
            invariant n == 0 ==> fs == files
            invariant n > 0 ==> fs == files - {path}
          {
            for ci := 0 to 2
              invariant n == 16 * si + 8 * fi + 4 * ei + 2 * ri + ci && tried == Candidates()[..n]
              invariant forall j :: 0 <= j < n ==> tried[j] !in accepted
              invariant n == 0 ==> fs == files
              invariant n > 0 ==> fs == files - {path}
            {
              var c := CandidateOf(si, fi, ei, ri, ci);
              AttemptsExtend(si, fi, ei, ri, ci);
              tried := tried + [c];
              if c in accepted {
                // prepare() has created the output file and start() succeeded
                AcceptedAfterRejected(accepted, tried);
                return Some(c), fs + {path}, tried;
              }
              // reset() the handle and delete the output file
              fs := fs - {path};
              n := n + 1;
            }
          }
        }
      }
    }
    assert tried == Candidates();
    NoneAcceptedIn(accepted, tried);
    return None, fs, tried;
  }

  class CallRecorderService {
    var state: RecorderState
    var mediaRecorder: Option<Capture>
    var currentRecording: Option<CallRecording>
    /** The paths that exist on the device's storage. */
    var files: set<string>
    /** The directory recordings are written to. */
    const recordingsDir: string

    ghost var attempts: seq<Candidate>
    ghost var scans: seq<string>
    ghost var handleEnds: seq<HandleEnd>

    /** A handle is held exactly while recording, it writes an existing file
        with one of the probe's configurations, and there is then a recording
        whose file a stop can announce. */
    ghost predicate Consistent()
      reads this
    {
      (mediaRecorder.Some? <==> state == Recording) &&
      (mediaRecorder.Some? ==>
        currentRecording.Some? &&
        mediaRecorder.value.outputPath in files &&
        InProduct(mediaRecorder.value.config))
    }

    /** The invariant between control calls: consistent, and the live handle
        writes the file of the current recording. Inside a start the current
        recording is replaced before the implicit stop, so only `Consistent()`
        holds there. */
    ghost predicate Valid()
      reads this
    {
      Consistent() &&
      (mediaRecorder.Some? ==> mediaRecorder.value.outputPath == RecordingPath(currentRecording.value.fileName))
    }

    /** Where the file of a recording named `fileName` lives. */
    function RecordingPath(fileName: string): string {
      recordingsDir + "/" + fileName
    }

    /** Distinct file names live at distinct paths. */
    lemma RecordingPathInjective(a: string, b: string)
      ensures RecordingPath(a) == RecordingPath(b) ==> a == b
    {
      if RecordingPath(a) == RecordingPath(b) {
        var k := |recordingsDir| + 1;
        assert a == RecordingPath(a)[k..];
        assert b == RecordingPath(b)[k..];
      }
    }

    constructor (recordingsDir: string, files: set<string>)
      ensures Valid()
      ensures this.recordingsDir == recordingsDir && this.files == files
      ensures state == Idle && mediaRecorder == None && currentRecording == None
      ensures attempts == [] && scans == [] && handleEnds == []
    {
      this.recordingsDir := recordingsDir;
      this.files := files;
      state := Idle;
      mediaRecorder := None;
      currentRecording := None;
      attempts := [];
      scans := [];
      handleEnds := [];
    }

    function GetState(): RecorderState
      reads this
    {
      state
    }

    /** Control call: whether a recording is in progress, that is, whether a
        capture handle is live. */
    function IsRecording(): (r: bool)
      reads this
      ensures Valid() ==> (r <==> mediaRecorder.Some?)
    {
      GetState() == Recording
    }

    /** Control call: the latest recording's metadata. It is never cleared,
        so it is also returned when idle, after a stop or a failed start. */
    function GetActiveRecording(): (r: Option<CallRecording>)
      reads this
      ensures Valid() && state == Recording ==> r.Some?
    {
      currentRecording
    }

    /** Stops and drops the capture handle, if there is one. A stop() that
        throws IllegalStateException skips the reset and release, but the
        state is forced back to idle all the same, and the file of the
        current recording is announced to the media scanner. */
    method StopRecordingInternal(outcome: StopOutcome)
      requires mediaRecorder.Some? ==> currentRecording.Some?
      modifies this
      ensures old(mediaRecorder).None? ==> unchanged(this)
      ensures old(mediaRecorder).Some? ==>
        state == Idle && mediaRecorder == None &&
        scans == old(scans) + [old(currentRecording).value.fileName]
      ensures handleEnds == old(handleEnds) + StopEnds(old(mediaRecorder), old(state), outcome)
      ensures currentRecording == old(currentRecording) && files == old(files) && attempts == old(attempts)
      ensures old(mediaRecorder).Some? || old(Valid()) ==> Valid()
      ensures old(Consistent()) ==> Consistent()
    {
      if mediaRecorder.Some? {
        var end := Abandoned;
        if state == Recording {
          match outcome
          case StopOk =>
            // stop(), reset() and release() all complete
            end := Released;
          case StopIllegalState =>
            // the exception is caught and logged; reset() and release() are skipped
        }
        handleEnds := handleEnds + [end];
        scans := scans + [currentRecording.value.fileName];
        mediaRecorder := None;
        state := Idle;
      }
    }

    /** Starts capture into `path`: stops any recording in progress, checks
        the two permissions, then runs the probe. */
    method StartRecordingInternal(path: string, audioGranted: bool, storageGranted: bool,
                                  accepted: set<Candidate>, stopOutcome: StopOutcome)
      returns (ok: bool)
      requires Consistent() && currentRecording.Some?
      modifies this
      ensures Consistent()
      ensures currentRecording.Some? && path == RecordingPath(currentRecording.value.fileName) ==> Valid()
      ensures ok <==> audioGranted && storageGranted && ProbeWinner(accepted).Some?
      ensures ok ==> state == Recording
      ensures ok ==> mediaRecorder == Some(Capture(ProbeWinner(accepted).value, path))
      ensures !ok ==> state == Idle && mediaRecorder == None
      ensures attempts == old(attempts) + (if audioGranted && storageGranted then ProbeAttempts(accepted) else [])
      ensures files ==
        if !(audioGranted && storageGranted) then old(files)
        else if ok then old(files) + {path}
        else old(files) - {path}
      ensures scans == old(scans) + (if old(mediaRecorder).Some? then [old(currentRecording).value.fileName] else [])
      ensures handleEnds == old(handleEnds) + StopEnds(old(mediaRecorder), old(state), stopOutcome) +
        (if audioGranted && storageGranted && !ok then [Released] else [])
      ensures currentRecording == old(currentRecording)
    {
      if mediaRecorder.Some? {
        StopRecordingInternal(stopOutcome);
      }
      if !audioGranted || !storageGranted {
        // either permission missing: refuse without touching the device
        return false;
      }
      // a new capture handle goes through the probe
      var winner, fs, tried := ProbeConfigurations(accepted, path, files);
      files := fs;
      attempts := attempts + tried;
      if winner.Some? {
        mediaRecorder := Some(Capture(winner.value, path));
        state := Recording;
      } else {
        // reset() and release() the handle
        handleEnds := handleEnds + [Released];
        mediaRecorder := None;
      }
      return winner.Some?;
    }

    /** Control call: stops the recording in progress and returns its
        metadata; when idle it does nothing and returns null. */
    method StopRecording(outcome: StopOutcome) returns (r: Option<CallRecording>)
      requires Valid()
      modifies this
      ensures Valid()
      ensures old(state) == Idle ==> r == None && unchanged(this)
      ensures old(state) == Recording ==>
        r == old(currentRecording) && r.Some? &&
        state == Idle && mediaRecorder == None &&
        scans == old(scans) + [r.value.fileName] &&
        old(mediaRecorder).value.outputPath == RecordingPath(r.value.fileName) &&
        handleEnds == old(handleEnds) + [if outcome == StopOk then Released else Abandoned]
      ensures currentRecording == old(currentRecording) && files == old(files) && attempts == old(attempts)
    {
      if GetState() == Recording {
        StopRecordingInternal(outcome);
        return currentRecording;
      }
      return None;
    }

    /** Control call: names the new recording, makes it the active recording
        (before the implicit stop of any recording in progress, which
        therefore announces the new file name), and starts capture into its
        file. `now` is the clock reading the file name is made from and
        `nowMillis` the separate reading stored as the start time. */
    method StartRecording(phoneNumber: Option<string>, creationTime: int,
                          now: DateFields, nowMillis: int,
                          audioGranted: bool, storageGranted: bool,
                          accepted: set<Candidate>, stopOutcome: StopOutcome)
      returns (ok: bool)
      requires Valid() && ValidDate(now)
      modifies this
      ensures Valid()
      ensures currentRecording ==
        Some(CallRecording(phoneNumber, creationTime, GenerateFilename(phoneNumber, now), nowMillis))
      ensures ok <==> audioGranted && storageGranted && ProbeWinner(accepted).Some?
      ensures ok ==> state == Recording
      ensures ok ==>
        mediaRecorder == Some(Capture(ProbeWinner(accepted).value, RecordingPath(GenerateFilename(phoneNumber, now))))
      ensures !ok ==> state == Idle && mediaRecorder == None
      ensures attempts == old(attempts) + (if audioGranted && storageGranted then ProbeAttempts(accepted) else [])
      ensures files ==
        if !(audioGranted && storageGranted) then old(files)
        else if ok then old(files) + {RecordingPath(GenerateFilename(phoneNumber, now))}
        else old(files) - {RecordingPath(GenerateFilename(phoneNumber, now))}
      ensures scans == old(scans) + (if old(mediaRecorder).Some? then [GenerateFilename(phoneNumber, now)] else [])
      ensures old(mediaRecorder).Some? && GenerateFilename(phoneNumber, now) != old(currentRecording).value.fileName ==>
        RecordingPath(scans[|scans| - 1]) != old(mediaRecorder).value.outputPath
      ensures handleEnds == old(handleEnds) + StopEnds(old(mediaRecorder), old(state), stopOutcome) +
        (if audioGranted && storageGranted && !ok then [Released] else [])
    {
      var fileName := GenerateFilename(phoneNumber, now);
      currentRecording := Some(CallRecording(phoneNumber, creationTime, fileName, nowMillis));
      ghost var oldRecording := old(currentRecording);
      if old(mediaRecorder).Some? {
        RecordingPathInjective(fileName, oldRecording.value.fileName);
      }
      ok := StartRecordingInternal(RecordingPath(fileName), audioGranted, storageGranted, accepted, stopOutcome);
    }
  }
}
