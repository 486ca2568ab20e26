/** The `useSpeechToText` hook (hooks/useSpeechToText.ts): three pieces of
    state, `listening`, `partial` and `finalText`, and the `resolveRef` slot
    that holds the resolver of a `stop()` call still waiting for text. The
    recogniser's callbacks (partial results, results, end, error), the
    1800 ms fallback timer and the hook's own `start`, `stop` and `cancel`
    are the methods of `Recognizer`.

    Each `stop()` that has to wait gets a ticket number: the resolver it
    installs (the wrapper that clears its timer and settles its promise) is
    `pending == Some(ticket)`, its fallback timer is `ticket in armed`, and
    every settled promise is logged in `delivered`. */
module SpeechToText {
  import opened Text

  /** The promise of the `stop()` call holding `ticket` settled with `text`. */
  datatype Delivery = Delivery(ticket: nat, text: string)

  /** What `stop()` gives its caller: text right away, or a promise that a
      later event settles. */
  datatype StopResult = Immediate(text: string) | Waiting(ticket: nat)

  const FallbackMillis := 1800

  /** `e.value?.[0] ?? ""`: the first alternative of a results event, or the
      empty string when the event carries no list or an empty one. */
  function FirstAlternative(value: Option<seq<string>>): (t: string)
    ensures value.Some? && |value.value| > 0 ==> t == value.value[0]
    ensures value.None? || value.value == [] ==> t == ""
  {
    match value
    case Some(alts) => if |alts| > 0 then alts[0] else ""
    case None => ""
  }

  /** `finalText || partial`: what end, error and `stop()` settle with. */
  function BestText(finalText: string, partial: string): (t: string)
    ensures t == finalText || t == partial
    ensures t == "" <==> finalText == "" && partial == ""
    ensures finalText != "" ==> t == finalText
  {
    if finalText != "" then finalText else partial
  }

  /** `partial || finalText || ""`: the fallback timer prefers the partial text. */
  function TimeoutText(partial: string, finalText: string): (t: string)
    ensures t == partial || t == finalText
    ensures t == "" <==> finalText == "" && partial == ""
    ensures partial != "" ==> t == partial
  {
    if partial != "" then partial else finalText
  }

  /** The two orders of preference agree whenever at most one text is set. */
  lemma BestAndTimeoutAgree(finalText: string, partial: string)
    requires finalText == "" || partial == "" || finalText == partial
    ensures BestText(finalText, partial) == TimeoutText(partial, finalText)
  {
  }

  class Recognizer {
    var listening: bool
    var partial: string
    var finalText: string
    /** `resolveRef.current`: the ticket of the stop() whose resolver it holds. */
    var pending: Option<nat>
    /** Fallback timers that have been neither cleared nor fired. */
    var armed: set<nat>
    /** Settled stop() promises, in order. */
    var delivered: seq<Delivery>
    /** Tickets handed out so far. */
    var issued: nat
    /** Tickets whose resolver was overwritten before it ran. */
    ghost var abandoned: set<nat>

    ghost predicate Delivers(t: nat)
      reads this
    {
      exists i :: 0 <= i < |delivered| && delivered[i].ticket == t
    }

    /** The slot discipline: tickets are fresh, each promise settles at most
        once, the pending one has not settled, and an abandoned one never
        settles. */
    ghost predicate Valid()
      reads this
    {
      (pending.Some? ==> pending.value < issued && pending.value !in abandoned && !Delivers(pending.value)) &&
      (forall t :: t in armed ==> t < issued) &&
      (forall t :: t in abandoned ==> t < issued) &&
      (forall i :: 0 <= i < |delivered| ==> delivered[i].ticket < issued && delivered[i].ticket !in abandoned) &&
      (forall i, j :: 0 <= i < j < |delivered| ==> delivered[i].ticket != delivered[j].ticket)
    }

    constructor ()
      ensures Valid()
      ensures !listening && partial == "" && finalText == ""
      ensures pending == None && armed == {} && delivered == [] && issued == 0
    {
      listening, partial, finalText := false, "", "";
      pending, armed, delivered, issued := None, {}, [], 0;
      abandoned := {};
    }

    /** `resolveRef.current?.(text); resolveRef.current = null`: the pending
        resolver, if any, clears its own timer and settles its promise. */
    method ResolvePending(text: string)
      requires Valid()
      modifies this
      ensures Valid()
      ensures pending == None
      ensures old(pending).Some? ==>
                delivered == old(delivered) + [Delivery(old(pending).value, text)] &&
                armed == old(armed) - {old(pending).value}
      ensures old(pending).None? ==> delivered == old(delivered) && armed == old(armed)
      ensures listening == old(listening) && partial == old(partial) && finalText == old(finalText)
      ensures issued == old(issued) && abandoned == old(abandoned)
    {
      if pending.Some? {
        var t := pending.value;
        armed := armed - {t};
        delivered := delivered + [Delivery(t, text)];
        pending := None;
      }
    }

    /** `onSpeechPartialResults`: only `partial` changes. */
    method OnPartialResults(value: Option<seq<string>>)
      requires Valid()
      modifies this
      ensures Valid()
      ensures partial == FirstAlternative(value)
      ensures listening == old(listening) && finalText == old(finalText)
      ensures pending == old(pending) && armed == old(armed) && delivered == old(delivered)
      ensures issued == old(issued) && abandoned == old(abandoned)
    {
      partial := FirstAlternative(value);
    }

    /** `onSpeechResults`: the first alternative becomes `finalText`, `partial`
        is cleared, a waiting stop() settles with the final text, and
        listening ends. */
    method OnResults(value: Option<seq<string>>)
      requires Valid()
      modifies this
      ensures Valid()
      ensures finalText == FirstAlternative(value) && partial == "" && !listening
      ensures pending == None
      ensures old(pending).Some? ==>
                delivered == old(delivered) + [Delivery(old(pending).value, FirstAlternative(value))]
      ensures old(pending).None? ==> delivered == old(delivered)
      ensures issued == old(issued) && abandoned == old(abandoned)
      ensures old(pending).Some? ==> armed == old(armed) - {old(pending).value}
      ensures old(pending).None? ==> armed == old(armed)
    {
      var t := FirstAlternative(value);
      partial := "";
      finalText := t;
      ResolvePending(t);
      listening := false;
    }

    /** `onSpeechEnd`: a waiting stop() settles with `finalText || partial`;
        listening ends; the texts stay. */
    method OnEnd()
      requires Valid()
      modifies this
      ensures Valid()
      ensures !listening && partial == old(partial) && finalText == old(finalText)
      ensures pending == None
      ensures old(pending).Some? ==>
                delivered == old(delivered) + [Delivery(old(pending).value, BestText(old(finalText), old(partial)))]
      ensures old(pending).None? ==> delivered == old(delivered)
      ensures issued == old(issued) && abandoned == old(abandoned)
      ensures old(pending).Some? ==> armed == old(armed) - {old(pending).value}
      ensures old(pending).None? ==> armed == old(armed)
    {
      ResolvePending(BestText(finalText, partial));
      listening := false;
    }

    /** `onSpeechError`: the same as the end of speech, so that the UI is never
        left waiting. */
    method OnError()
      requires Valid()
      modifies this
      ensures Valid()
      ensures !listening && partial == old(partial) && finalText == old(finalText)
      ensures pending == None
      ensures old(pending).Some? ==>
                delivered == old(delivered) + [Delivery(old(pending).value, BestText(old(finalText), old(partial)))]
      ensures old(pending).None? ==> delivered == old(delivered)
      ensures issued == old(issued) && abandoned == old(abandoned)
      ensures old(pending).Some? ==> armed == old(armed) - {old(pending).value}
      ensures old(pending).None? ==> armed == old(armed)
    {
      ResolvePending(BestText(finalText, partial));
      listening := false;
    }

    /** `start`: both texts are cleared first; on Android a refused microphone
        permission returns with `listening` untouched, otherwise listening
        begins. Starting the recogniser itself is external. */
    method Start(isAndroid: bool, permissionGranted: bool)
      requires Valid()
      modifies this
      ensures Valid()
      ensures partial == "" && finalText == ""
      ensures listening == if isAndroid && !permissionGranted then old(listening) else true
      ensures pending == old(pending) && armed == old(armed) && delivered == old(delivered)
      ensures issued == old(issued) && abandoned == old(abandoned)
    {
      finalText := "";
      partial := "";
      if isAndroid && !permissionGranted {
        return;
      }
      listening := true;
    }

    /** `stop`: with text already at hand it answers at once and installs
        nothing. Otherwise it installs a fresh resolver and arms its fallback
        timer; a resolver already in the slot is overwritten, so that earlier
        stop() is abandoned and its promise never settles. */
    method Stop() returns (r: StopResult)
      requires Valid()
      modifies this
      ensures Valid()
      ensures listening == old(listening) && partial == old(partial) && finalText == old(finalText)
      ensures delivered == old(delivered)
      ensures BestText(finalText, partial) != "" ==>
                r == Immediate(BestText(finalText, partial)) &&
                pending == old(pending) && armed == old(armed) && issued == old(issued) &&
                abandoned == old(abandoned)
      ensures BestText(finalText, partial) == "" ==>
                r == Waiting(old(issued)) && pending == Some(old(issued)) &&
                armed == old(armed) + {old(issued)} && issued == old(issued) + 1 &&
                abandoned == old(abandoned) + (if old(pending).Some? then {old(pending).value} else {})
    {
      var bestNow := BestText(finalText, partial);
      if bestNow != "" {
        return Immediate(bestNow);
      }
      var t := issued;
      if pending.Some? {
        abandoned := abandoned + {pending.value};
      }
      issued := issued + 1;
      pending := Some(t);
      armed := armed + {t};
      r := Waiting(t);
    }

    /** The fallback timer of `ticket` fires after 1800 ms unless it was
        cleared. Whatever resolver is in the slot then (possibly one installed
        by a later stop()) settles with `partial || finalText || ""`, where
        the timer reads the two texts as they were when its stop() ran. That
        stop() armed it only because both were empty, so the timer always
        settles with the empty string. */
    method TimerFires(ticket: nat)
      requires Valid()
      modifies this
      ensures Valid()
      ensures partial == old(partial) && finalText == old(finalText)
      ensures ticket !in old(armed) ==>
                listening == old(listening) && pending == old(pending) &&
                armed == old(armed) && delivered == old(delivered)
      ensures ticket in old(armed) && old(pending).None? ==>
                listening == old(listening) && pending == None &&
                armed == old(armed) - {ticket} && delivered == old(delivered)
      ensures ticket in old(armed) && old(pending).Some? ==>
                !listening && pending == None &&
                armed == old(armed) - {ticket, old(pending).value} &&
                delivered == old(delivered) + [Delivery(old(pending).value, "")]
      ensures issued == old(issued) && abandoned == old(abandoned)
    {
      if ticket !in armed {
        return;
      }
      armed := armed - {ticket};
      if pending.Some? {
        ResolvePending(TimeoutText("", ""));
        listening := false;
      }
    }

    /** `cancel`: listening ends, both texts are cleared, and a waiting stop()
        settles with the empty string. Cancelling the recogniser is external. */
    method Cancel()
      requires Valid()
      modifies this
      ensures Valid()
      ensures !listening && partial == "" && finalText == ""
      ensures pending == None
      ensures old(pending).Some? ==> delivered == old(delivered) + [Delivery(old(pending).value, "")]
      ensures old(pending).None? ==> delivered == old(delivered)
      ensures issued == old(issued) && abandoned == old(abandoned)
      ensures old(pending).Some? ==> armed == old(armed) - {old(pending).value}
      ensures old(pending).None? ==> armed == old(armed)
    {
      listening := false;
      partial := "";
      finalText := "";
      ResolvePending("");
    }
  }

  /** A second stop() issued while the first still waits takes over the slot:
      the first ticket is abandoned, and the first timer, when it fires,
      settles the second promise instead. */
  method SecondStopTakesOverSlot()
  {
    var r := new Recognizer();
    var a := r.Stop();
    var b := r.Stop();
    assert a == Waiting(0) && b == Waiting(1);
    assert 0 in r.abandoned;
    r.TimerFires(0);
    assert r.delivered == [Delivery(1, "")];
    r.TimerFires(1);
    assert r.delivered == [Delivery(1, "")];
  }
}
