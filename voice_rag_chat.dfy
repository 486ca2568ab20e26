/** The voice sheet (components/VoiceRAGChat.tsx): a recorder that starts
    when the sheet becomes visible, pauses and resumes on mute, and is
    stopped by the close button or when the sheet goes away. The recorder
    and the permission prompt are external: each call's success or failure
    is a parameter, and a call that throws leaves the recorder as it was.
    The sheet records only; it does not detect speech, submit or play back. */
module VoiceRecorder {
  import opened Text

  // ---------------------------------------------------------------------
  // The elapsed-time label.

  /** `s.toString().padStart(2, "0")`. */
  function PadStart2(s: string): (r: string)
    ensures |s| >= 2 ==> r == s
    ensures |s| < 2 ==> |r| == 2 && r[2 - |s|..] == s && forall k :: 0 <= k < 2 - |s| ==> r[k] == '0'
  {
    if |s| == 0 then "00" else if |s| == 1 then "0" + s else s
  }

  /** `mmss`: whole minutes, a colon, and the seconds within the minute as
      two digits; a recorder that reports no duration counts as 0 ms.
      Durations are whole non-negative milliseconds. */
  function Mmss(durationMillis: Option<nat>): string {
    var ms := match durationMillis case Some(d) => d case None => 0;
    NatToString(ms / 60000) + ":" + PadStart2(NatToString((ms % 60000) / 1000))
  }

  /** Reads an `m:ss` label back into minutes and seconds. */
  function ParseMmss(t: string): Option<(nat, nat)> {
    if |t| >= 4 && t[|t| - 3] == ':' then
      match (ParseNat(t[..|t| - 3]), ParseNat(t[|t| - 2..]))
      case (Some(m), Some(s)) => Some((m, s))
      case _ => None
    else None
  }

  lemma ParseTwoDigits(s: nat)
    requires s < 100
    ensures ParseNat(PadStart2(NatToString(s))) == Some(s)
  {
    var t := NatToString(s);
    NatToStringRoundTrip(s);
    if s < 10 {
      var p := PadStart2(t);
      assert p == ['0', t[0]];
      assert p[..1] == ['0'];
      assert DigitsValue(p[..1]) == DigitsValue([]) * 10 + DigitValue('0') == 0;
      assert DigitsValue(t) == DigitsValue([]) * 10 + DigitValue(t[0]);
    }
  }

  /** The label carries exactly the minutes and the seconds (below 60) of the
      duration, and "0:00" when there is none. */
  lemma {:induction false} MmssRoundTrip(durationMillis: Option<nat>)
    ensures var ms := match durationMillis case Some(d) => d case None => 0;
            ParseMmss(Mmss(durationMillis)) == Some((ms / 60000, (ms % 60000) / 1000)) &&
            (ms % 60000) / 1000 < 60
    ensures durationMillis.None? ==> Mmss(durationMillis) == "0:00"
  {
    var ms := match durationMillis case Some(d) => d case None => 0;
    var m, s := ms / 60000, (ms % 60000) / 1000;
    var mt, st := NatToString(m), PadStart2(NatToString(s));
    var t := Mmss(durationMillis);
    assert t == mt + ":" + st;
    assert |st| == 2;
    assert t[..|t| - 3] == mt;
    assert t[|t| - 2..] == st;
    NatToStringRoundTrip(m);
    ParseTwoDigits(s);
    if durationMillis.None? {
      assert NatToString(0) == "0";
    }
  }

  /** The header line: nothing is rendered while the sheet is hidden. */
  function HeaderText(visible: bool, muted: bool): (r: Option<string>)
    ensures r.None? <==> !visible
    ensures r == Some("Muted") <==> visible && muted
    ensures r == Some("Listening...") <==> visible && !muted
  {
    if !visible then None else Some(if muted then "Muted" else "Listening...")
  }

  // ---------------------------------------------------------------------
  // The recorder control.

  /** The microphone permission request: granted, refused, or it threw. */
  datatype Permission = Granted | Denied | RequestThrows

  class VoiceSheet {
    var visible: bool
    var muted: bool
    /** The recorder's `isRecording`: false before the first record(), while
        paused and after stop(). */
    var isRecording: bool
    /** How often `onClose` has been called. */
    var closeCalls: nat
    /** The URIs passed to `onRecorded`, in order. */
    var recorded: seq<string>
    /** How often the permission alert has been shown. */
    var alerts: nat

    constructor ()
      ensures !visible && !muted && !isRecording
      ensures closeCalls == 0 && recorded == [] && alerts == 0
    {
      visible, muted, isRecording := false, false, false;
      closeCalls, recorded, alerts := 0, [], 0;
    }

    /** The effect's start routine, run when the sheet becomes visible:
        permission, audio mode, prepare, record. A refused permission alerts
        and closes; any call that throws closes; recording and unmuting happen
        only when every call succeeds. */
    method StartRecording(permission: Permission, modeOk: bool, prepareOk: bool, recordOk: bool)
      modifies this
      ensures var started := permission == Granted && modeOk && prepareOk && recordOk;
              isRecording == (started || old(isRecording)) &&
              muted == (!started && old(muted)) &&
              closeCalls == old(closeCalls) + (if started then 0 else 1)
      ensures alerts == old(alerts) + (if permission == Denied then 1 else 0)
      ensures visible == old(visible) && recorded == old(recorded)
    {
      if permission == RequestThrows {
        closeCalls := closeCalls + 1;
        return;
      }
      if permission == Denied {
        alerts := alerts + 1;
        closeCalls := closeCalls + 1;
        return;
      }
      if !modeOk || !prepareOk || !recordOk {
        closeCalls := closeCalls + 1;
        return;
      }
      isRecording := true;
      muted := false;
    }

    /** The effect's cleanup, run when `visible` changes and on unmount:
        unmute, and stop the recorder if it is recording. A failing stop is
        swallowed. */
    method Cleanup(stopOk: bool)
      modifies this
      ensures !muted
      ensures isRecording == (old(isRecording) && !stopOk)
      ensures visible == old(visible) && closeCalls == old(closeCalls)
      ensures recorded == old(recorded) && alerts == old(alerts)
    {
      muted := false;
      if isRecording && stopOk {
        isRecording := false;
      }
    }

    /** The host shows the sheet: the previous run's cleanup, then the start
        routine. */
    method Show(stopOk: bool, permission: Permission, modeOk: bool, prepareOk: bool, recordOk: bool)
      requires !visible
      modifies this
      ensures visible
      ensures var started := permission == Granted && modeOk && prepareOk && recordOk;
              isRecording == (started || (old(isRecording) && !stopOk)) &&
              !muted &&
              closeCalls == old(closeCalls) + (if started then 0 else 1)
      ensures alerts == old(alerts) + (if permission == Denied then 1 else 0)
      ensures recorded == old(recorded)
    {
      Cleanup(stopOk);
      visible := true;
      StartRecording(permission, modeOk, prepareOk, recordOk);
    }

    /** The host hides the sheet: cleanup only. */
    method Hide(stopOk: bool)
      requires visible
      modifies this
      ensures !visible && !muted
      ensures isRecording == (old(isRecording) && !stopOk)
      ensures closeCalls == old(closeCalls) && recorded == old(recorded) && alerts == old(alerts)
    {
      Cleanup(stopOk);
      visible := false;
    }

    /** `toggleMute`. Unmuted: start recording first if it is not running,
        then pause and mute. Muted: resume (`record`) and unmute. When a
        recorder call throws the rest is skipped, so `muted` keeps its value. */
    method ToggleMute(startOk: bool, callOk: bool)
      modifies this
      ensures old(muted) ==>
                if callOk then !muted && isRecording
                else muted && isRecording == old(isRecording)
      ensures !old(muted) && old(isRecording) ==>
                if callOk then muted && !isRecording
                else !muted && isRecording
      ensures !old(muted) && !old(isRecording) ==>
                if !startOk then !muted && !isRecording
                else if callOk then muted && !isRecording
                else !muted && isRecording
      ensures visible == old(visible) && closeCalls == old(closeCalls)
      ensures recorded == old(recorded) && alerts == old(alerts)
    {
      if !isRecording && !muted {
        if !startOk {
          return;
        }
        isRecording := true;
      }
      if !muted {
        if !callOk {
          return;
        }
        isRecording := false;
        muted := true;
      } else {
        if !callOk {
          return;
        }
        isRecording := true;
        muted := false;
      }
    }

    /** `stopRecordingNow` (the close button): stop if recording; hand the
        recorder's URI (empty when it has none) to `onRecorded` only when stop
        did not throw and the URI is non-empty; then always unmute and call
        `onClose` exactly once. */
    method StopRecordingNow(stopOk: bool, recorderUri: string)
      modifies this
      ensures !muted
      ensures closeCalls == old(closeCalls) + 1
      ensures isRecording == (old(isRecording) && !stopOk)
      ensures recorded == old(recorded) +
                (if (!old(isRecording) || stopOk) && recorderUri != "" then [recorderUri] else [])
      ensures visible == old(visible) && alerts == old(alerts)
    {
      if isRecording {
        if stopOk {
          isRecording := false;
          if recorderUri != "" {
            recorded := recorded + [recorderUri];
          }
        }
      } else if recorderUri != "" {
        recorded := recorded + [recorderUri];
      }
      muted := false;
      closeCalls := closeCalls + 1;
    }
  }

  /** Mute then unmute with a working recorder returns to recording,
      unmuted, without closing the sheet. */
  method MuteRoundTrip()
  {
    var v := new VoiceSheet();
    v.Show(true, Granted, true, true, true);
    assert v.isRecording && !v.muted;
    v.ToggleMute(true, true);
    assert v.muted && !v.isRecording;
    v.ToggleMute(true, true);
    assert !v.muted && v.isRecording && v.closeCalls == 0;
    v.StopRecordingNow(true, "file:///rec.m4a");
    assert v.recorded == ["file:///rec.m4a"] && v.closeCalls == 1;
  }
}
