/** The content-script heartbeat: interaction pings throttled to one per 15 seconds, plus a
    single bootstrap ping once the page is visible. The clock and `document.hidden` are
    parameters of each event. */
module Heartbeat {

  /** `MIN_GAP_MS`. */
  const MinGapMs: int := 15000

  /** The `reason` a ping carries. */
  datatype Reason = Pointer | Key | Wheel | Scroll | VisibleBoot

  /** A HEARTBEAT message: its `ts` and its `reason`. */
  datatype Ping = Ping(ts: int, reason: Reason)

  /** The number of bootstrap pings in a run. */
  function Boots(pings: seq<Ping>): (n: nat)
    ensures n <= |pings|
    ensures n == 0 <==> forall i :: 0 <= i < |pings| ==> pings[i].reason != VisibleBoot
  {
    if pings == [] then 0
    else Boots(pings[..|pings| - 1]) + (if pings[|pings| - 1].reason == VisibleBoot then 1 else 0)
  }

  /** `["Shift","Meta","Alt","Control"].includes(key)`. */
  predicate IsModifier(key: string)
  {
    key == "Shift" || key == "Meta" || key == "Alt" || key == "Control"
  }

  class Page {
    /** The time of the last ping that passed the throttle (0 after a reset). */
    var last: int
    /** Whether the bootstrap ping has been sent. */
    var booted: bool
    /** The pings handed to `chrome.runtime.sendMessage`, oldest first. */
    var sent: seq<Ping>
    /** No visibility reset since the last ping: `last` is still that ping's time. */
    ghost var throttled: bool

    ghost predicate Valid()
      reads this
    {
      && (throttled ==> sent != [] && last == sent[|sent| - 1].ts)
      && Boots(sent) <= 1
      && (!booted ==> Boots(sent) == 0)
    }

    /** A freshly injected script: `last = 0`, `booted = false`, nothing sent. */
    constructor()
      ensures Valid()
      ensures last == 0 && !booted && sent == []
    {
      last := 0;
      booted := false;
      sent := [];
      throttled := false;
    }

    /** `send(reason)`: nothing while hidden; an interaction within 15 s of `last` is dropped;
        otherwise `last` becomes now and the ping is sent. The bootstrap ping skips the
        throttle and is only sent before the page has booted. */
    method Send(reason: Reason, now: int, hidden: bool)
      requires Valid()
      requires reason == VisibleBoot ==> booted && Boots(sent) == 0
      modifies this
      ensures Valid()
      ensures booted == old(booted)
      ensures hidden ==> last == old(last) && sent == old(sent)
      ensures !hidden && now - old(last) < MinGapMs && reason != VisibleBoot ==>
        last == old(last) && sent == old(sent)
      ensures !hidden && (now - old(last) >= MinGapMs || reason == VisibleBoot) ==>
        last == now && sent == old(sent) + [Ping(now, reason)]
      ensures old(throttled) && |sent| > |old(sent)| && reason != VisibleBoot ==>
        now - old(sent)[|old(sent)| - 1].ts >= MinGapMs
    {
      if hidden {
        return;
      }
      if now - last < MinGapMs && reason != VisibleBoot {
        return;
      }
      last := now;
      sent := sent + [Ping(now, reason)];
      throttled := true;
      assert sent[..|sent| - 1] == old(sent);
    }

    /** `onKey`: a lone modifier key sends nothing; any other key is an interaction. */
    method OnKey(key: string, now: int, hidden: bool)
      requires Valid()
      modifies this
      ensures Valid()
      ensures booted == old(booted)
      ensures IsModifier(key) ==> last == old(last) && sent == old(sent)
      ensures !IsModifier(key) && !hidden && now - old(last) >= MinGapMs ==>
        last == now && sent == old(sent) + [Ping(now, Key)]
      ensures !IsModifier(key) && (hidden || now - old(last) < MinGapMs) ==>
        last == old(last) && sent == old(sent)
    {
      if IsModifier(key) {
        return;
      }
      Send(Key, now, hidden);
    }

    /** `bootIfVisible`: on a visible page that has not booted, mark it booted, reset `last`
        and send the bootstrap ping; otherwise nothing. */
    method BootIfVisible(now: int, hidden: bool)
      requires Valid()
      modifies this
      ensures Valid()
      ensures hidden || old(booted) ==> last == old(last) && booted == old(booted) && sent == old(sent)
      ensures !hidden && !old(booted) ==> booted && last == now && sent == old(sent) + [Ping(now, VisibleBoot)]
    {
      if !hidden && !booted {
        booted := true;
        last := 0;
        throttled := false;
        Send(VisibleBoot, now, hidden);
      }
    }

    /** The `visibilitychange` listener: becoming visible resets `last` to 0, so the next
        interaction is sent at once, and boots the page if it has not booted. */
    method OnVisibilityChange(now: int, hidden: bool)
      requires Valid()
      modifies this
      ensures Valid()
      ensures hidden ==> last == old(last) && booted == old(booted) && sent == old(sent)
      ensures !hidden && old(booted) ==> last == 0 && booted && sent == old(sent)
      ensures !hidden && !old(booted) ==> booted && last == now && sent == old(sent) + [Ping(now, VisibleBoot)]
    {
      if !hidden {
        last := 0;
        throttled := false;
        BootIfVisible(now, hidden);
      }
    }
  }

  /** Two interaction events with no visibility change between them: if both send, the second
      is at least 15 s after the first, whatever the clock did in between. */
  method TwoInteractions(page: Page, t1: int, t2: int)
    requires page.Valid()
    modifies page
    ensures page.Valid()
    ensures |page.sent| == |old(page.sent)| + 2 ==> t2 - t1 >= MinGapMs
  {
    var n := |page.sent|;
    page.Send(Pointer, t1, false);
    var m := |page.sent|;
    page.Send(Scroll, t2, false);
    if |page.sent| == n + 2 {
      assert m == n + 1 && page.sent[m - 1].ts == t1;
    }
  }
}
