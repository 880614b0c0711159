/** The process-local replay maps of the payment bridge: two insertion-ordered
    dictionaries, cut back to their newest 10,000 entries
    (app/services/live_payments.py). */
module ReplayCache {
  import opened Schema

  const CAP: nat := 10_000

  // ------------------------------------------------- insertion-ordered dictionaries

  /** A Python dict: its items in the order their keys were first set. */
  type Dict<K, V> = seq<(K, V)>

  function At<K(==), V>(d: Dict<K, V>, key: K): Option<nat> { Find(d, (item: (K, V)) => item.0 == key) }

  /** `d[key] = value`: a known key keeps its place, a new one goes last. */
  function Assign<K(==), V>(d: Dict<K, V>, key: K, value: V): Dict<K, V> {
    match At(d, key)
    case Some(i) => d[i := (key, value)]
    case None => d + [(key, value)]
  }

  // ----------------------------------------------------------------- accepted events

  /** One accepted event: the nonce it came under, its body's digest, its event id. */
  datatype Seen = Seen(nonce: string, digest: string, event: string)

  function NonceDict(w: seq<Seen>): Dict<string, string> {
    seq(|w|, i requires 0 <= i < |w| => (w[i].nonce, w[i].digest))
  }

  function EventDict(w: seq<Seen>): Dict<string, (string, string)> {
    seq(|w|, i requires 0 <= i < |w| => (w[i].event, (w[i].digest, w[i].nonce)))
  }

  ghost predicate Distinct(w: seq<Seen>) {
    forall i, j | 0 <= i < j < |w| :: w[i].nonce != w[j].nonce && w[i].event != w[j].event
  }

  /** The newest entries, 10,000 at most. */
  function Window(log: seq<Seen>): seq<Seen> { if |log| <= CAP then log else log[|log| - CAP..] }

  /** The event id a body validates to, by its digest; `None` for an invalid body. */
  type EventOf = string -> Option<string>

  ghost predicate Derived(log: seq<Seen>, eventOf: EventOf) {
    forall i | 0 <= i < |log| :: eventOf(log[i].digest) == Some(log[i].event)
  }

  datatype Verdict = Conflict | Invalid | Admitted(duplicate: bool)

  /** The latest entry of a nonce, and of an event. */
  function NonceAt(log: seq<Seen>, nonce: string): Option<nat> { FindLast(log, (e: Seen) => e.nonce == nonce) }

  function EventAt(log: seq<Seen>, event: string): Option<nat> { FindLast(log, (e: Seen) => e.event == event) }

  /** What maps that hold exactly these entries, later ones winning, answer. */
  function Judge(log: seq<Seen>, nonce: string, digest: string, event: Option<string>): Verdict {
    var n := NonceAt(log, nonce);
    if n.Some? && log[n.value].digest != digest then Conflict
    else if event.None? then Invalid
    else
      var v := EventAt(log, event.value);
      if v.Some? && (log[v.value].digest != digest || log[v.value].nonce != nonce) then Conflict
      else Admitted(n.Some? || v.Some?)
  }

  predicate Known(log: seq<Seen>, nonce: string, event: Option<string>) {
    exists i | 0 <= i < |log| :: log[i].nonce == nonce || Some(log[i].event) == event
  }

  // --------------------------------------------------------------------- the bridge

  class PaymentBridge {
    const eventOf: EventOf
    var seenNonces: Dict<string, string>
    var seenEvents: Dict<string, (string, string)>
    /** Every event accepted as new, in order, evicted or not. */
    ghost var log: seq<Seen>

    /** The two dictionaries are one queue, the newest part of the log. */
    ghost predicate Valid()
      reads this
    {
      && seenNonces == NonceDict(Window(log)) && seenEvents == EventDict(Window(log))
      && Distinct(Window(log)) && Derived(log, eventOf)
    }

    constructor (eventOf: EventOf)
      ensures Valid() && log == [] && this.eventOf == eventOf
    {
      this.eventOf := eventOf;
      seenNonces, seenEvents, log := [], [], [];
    }

    /** `verify_webhook` once the signature has been checked. */
    method VerifyWebhook(nonce: string, digest: string) returns (verdict: Verdict)
      requires Valid()
      modifies this
      ensures Valid()
      ensures verdict == Judge(Window(old(log)), nonce, digest, eventOf(digest))
      ensures log == if verdict == Admitted(false) then old(log) + [Seen(nonce, digest, eventOf(digest).value)] else old(log)
    {
      ghost var w := Window(log);
      NoncesFound(w, nonce);
      var known := At(seenNonces, nonce);
      var duplicate := false;
      if known.Some? {
        if seenNonces[known.value].1 != digest { return Conflict; }
        duplicate := true;
      }
      var event := eventOf(digest);
      if event.None? { return Invalid; }
      EventsFound(w, event.value);
      var old_ := At(seenEvents, event.value);
      if old_.Some? && seenEvents[old_.value].1 != (digest, nonce) { return Conflict; }
      Remember(nonce, digest, event.value);
      verdict := Admitted(duplicate || old_.Some?);
    }

    /** Set the event in both maps, then cut them back. */
    method Remember(nonce: string, digest: string, event: string)
      requires Valid() && eventOf(digest) == Some(event)
      requires var n := At(seenNonces, nonce); n.Some? ==> seenNonces[n.value].1 == digest
      requires var v := At(seenEvents, event); v.Some? ==> seenEvents[v.value].1 == (digest, nonce)
      modifies this
      ensures Valid()
      ensures log == if At(old(seenNonces), nonce).None? then old(log) + [Seen(nonce, digest, event)] else old(log)
    {
      ghost var w := Window(log);
      InStep(w, nonce, digest, event, eventOf);
      WindowIsCut(log, Seen(nonce, digest, event));
      if At(seenNonces, nonce).None? { log := log + [Seen(nonce, digest, event)]; }
      ghost var longer := if At(seenNonces, nonce).None? then w + [Seen(nonce, digest, event)] else w;
      seenNonces := Assign(seenNonces, nonce, digest);
      seenEvents := Assign(seenEvents, event, (digest, nonce));
      EvictOldest(longer);
    }

    /** The two eviction loops. */
    method EvictOldest(ghost queue: seq<Seen>)
      requires seenNonces == NonceDict(queue) && seenEvents == EventDict(queue)
      modifies `seenNonces, `seenEvents
      ensures seenNonces == NonceDict(Window(queue)) && seenEvents == EventDict(Window(queue))
    {
      ghost var cut := 0;
      while |seenNonces| > CAP
        invariant 0 <= cut <= |queue| && seenNonces == NonceDict(queue[cut..]) && seenEvents == EventDict(queue)
        invariant cut == 0 || |queue| - cut >= CAP
      {
        seenNonces := seenNonces[1..];
        cut := cut + 1;
      }
      ghost var cutToo := 0;
      while |seenEvents| > CAP
        invariant 0 <= cutToo <= |queue| && seenEvents == EventDict(queue[cutToo..])
        invariant cutToo == 0 || |queue| - cutToo >= CAP
        invariant seenNonces == NonceDict(queue[cut..])
      {
        seenEvents := seenEvents[1..];
        cutToo := cutToo + 1;
      }
    }
  }

  /** The window of a longer log is the old window with the new entry, cut again. */
  lemma WindowIsCut(log: seq<Seen>, e: Seen)
    ensures Window(log + [e]) == Window(Window(log) + [e]) && Window(Window(log)) == Window(log)
    ensures Distinct(Window(log) + [e]) ==> Distinct(Window(log + [e]))
  {
    var w, longer := Window(Window(log) + [e]), Window(log) + [e];
    if |longer| > CAP { assert forall i | 0 <= i < |w| :: w[i] == longer[|longer| - CAP + i]; }
  }

  /** Looking a nonce up in the dictionary finds the entry that carries it. */
  lemma NoncesFound(w: seq<Seen>, nonce: string)
    requires Distinct(w)
    ensures At(NonceDict(w), nonce) == NonceAt(w, nonce)
  {
    var d := NonceDict(w);
    var i, j := At(d, nonce), NonceAt(w, nonce);
    if i.Some? { assert w[i.value].nonce == nonce; }
    if j.Some? { assert d[j.value].0 == nonce; }
  }

  lemma EventsFound(w: seq<Seen>, event: string)
    requires Distinct(w)
    ensures At(EventDict(w), event) == EventAt(w, event)
  {
    var d := EventDict(w);
    var i, j := At(d, event), EventAt(w, event);
    if i.Some? { assert w[i.value].event == event; }
    if j.Some? { assert d[j.value].0 == event; }
  }

  /** An event that is not refused is new to both dictionaries, or sits at the same
      place in both. */
  lemma InStep(w: seq<Seen>, nonce: string, digest: string, event: string, eventOf: EventOf)
    requires Distinct(w) && Derived(w, eventOf) && eventOf(digest) == Some(event)
    requires var n := At(NonceDict(w), nonce); n.Some? ==> w[n.value].digest == digest
    requires var v := At(EventDict(w), event); v.Some? ==> w[v.value].digest == digest && w[v.value].nonce == nonce
    ensures At(NonceDict(w), nonce) == At(EventDict(w), event)
    ensures At(NonceDict(w), nonce).Some? ==>
              Assign(NonceDict(w), nonce, digest) == NonceDict(w) && Assign(EventDict(w), event, (digest, nonce)) == EventDict(w)
    ensures At(NonceDict(w), nonce).None? ==>
              var longer := w + [Seen(nonce, digest, event)];
              && Distinct(longer)
              && Assign(NonceDict(w), nonce, digest) == NonceDict(longer)
              && Assign(EventDict(w), event, (digest, nonce)) == EventDict(longer)
  {
    var n, v := At(NonceDict(w), nonce), At(EventDict(w), event);
    if n.Some? { assert EventDict(w)[n.value].0 == event; }
    if v.Some? { assert NonceDict(w)[v.value].0 == nonce; }
    if n.Some? && v.Some? { assert w[n.value].event == w[v.value].event; }
    if n.None? {
      forall i | 0 <= i < |w| ensures w[i].nonce != nonce && w[i].event != event {
        assert NonceDict(w)[i].0 != nonce && EventDict(w)[i].0 != event;
      }
    }
  }

  /** What the maps answer, entry by entry: a pair they hold is a duplicate, an event
      of which they know neither nonce nor id is new, an invalid body under an unknown
      nonce is invalid, and everything else is a conflict. */
  lemma JudgeIff(w: seq<Seen>, nonce: string, digest: string, eventOf: EventOf)
    requires Distinct(w) && Derived(w, eventOf)
    ensures var verdict := Judge(w, nonce, digest, eventOf(digest)); var event := eventOf(digest);
            && (verdict == Admitted(true) <==> event.Some? && Seen(nonce, digest, event.value) in w)
            && (verdict == Admitted(false) <==> event.Some? && forall e :: e in w ==> e.nonce != nonce && e.event != event.value)
            && (verdict == Invalid <==> event.None? && forall e :: e in w ==> e.nonce != nonce)
  {
    var event := eventOf(digest);
    var n := NonceAt(w, nonce);
    forall e | e in w ensures eventOf(e.digest) == Some(e.event) {
      var i :| 0 <= i < |w| && w[i] == e;
    }
    if n.Some? { assert w[n.value] in w; }
    if event.Some? {
      var v := EventAt(w, event.value);
      if v.Some? { assert w[v.value] in w; }
      if Seen(nonce, digest, event.value) in w {
        var i :| 0 <= i < |w| && w[i] == Seen(nonce, digest, event.value);
        assert n == Some(i) && v == Some(i);
      }
    }
  }

  /** The maps hold the newest 10,000 accepted events, or all of them. */
  lemma WindowIs(log: seq<Seen>)
    ensures |Window(log)| == Min(|log|, 10_000) && Window(log) == log[|log| - |Window(log)|..]
  {
  }

  // --------------------------------------------------- against maps without a bound

  lemma {:induction false} FindLastSuffix<T>(rows: seq<T>, k: nat, p: T -> bool)
    requires k <= |rows|
    ensures FindLast(rows[k..], p).Some? ==> FindLast(rows, p) == Some(k + FindLast(rows[k..], p).value)
  {
    var i, j := FindLast(rows[k..], p), FindLast(rows, p);
    if i.Some? {
      assert forall n | k <= n < |rows| :: rows[k..][n - k] == rows[n];
    }
  }

  /** The bounded maps answer exactly as maps that never forget, as long as the nonce
      or the event is among the newest 10,000 entries, or was never accepted at all;
      and only then. */
  lemma CapIsInvisibleIff(log: seq<Seen>, nonce: string, digest: string, eventOf: EventOf)
    requires Derived(log, eventOf)
    ensures Judge(Window(log), nonce, digest, eventOf(digest)) == Judge(log, nonce, digest, eventOf(digest))
            <==> Known(Window(log), nonce, eventOf(digest)) || !Known(log, nonce, eventOf(digest))
  {
    var event := eventOf(digest);
    if Known(Window(log), nonce, event) {
      RememberedAlike(log, nonce, digest, eventOf);
    } else if Known(log, nonce, event) {
      ForgottenDiffers(log, nonce, digest, eventOf);
    } else {
      NeverSeen(log, nonce, event);
      NeverSeen(Window(log), nonce, event);
    }
  }

  lemma NeverSeen(log: seq<Seen>, nonce: string, event: Option<string>)
    requires !Known(log, nonce, event)
    ensures NonceAt(log, nonce).None?
    ensures event.Some? ==> EventAt(log, event.value).None?
  {
  }

  lemma RememberedAlike(log: seq<Seen>, nonce: string, digest: string, eventOf: EventOf)
    requires Derived(log, eventOf) && Known(Window(log), nonce, eventOf(digest))
    ensures Judge(Window(log), nonce, digest, eventOf(digest)) == Judge(log, nonce, digest, eventOf(digest))
  {
    RememberedSuffix(Window(log), log, |log| - |Window(log)|, nonce, digest, eventOf);
  }

  lemma LatestInSuffix(w: seq<Seen>, log: seq<Seen>, k: nat, nonce: string, event: string)
    requires k <= |log| && w == log[k..]
    ensures NonceAt(w, nonce).Some? ==> NonceAt(log, nonce) == Some(k + NonceAt(w, nonce).value)
    ensures EventAt(w, event).Some? ==> EventAt(log, event) == Some(k + EventAt(w, event).value)
  {
    FindLastSuffix(log, k, (e: Seen) => e.nonce == nonce);
    FindLastSuffix(log, k, (e: Seen) => e.event == event);
  }

  lemma RememberedSuffix(w: seq<Seen>, log: seq<Seen>, k: nat, nonce: string, digest: string, eventOf: EventOf)
    requires k <= |log| && w == log[k..] && Derived(log, eventOf) && Known(w, nonce, eventOf(digest))
    ensures Judge(w, nonce, digest, eventOf(digest)) == Judge(log, nonce, digest, eventOf(digest))
  {
    var event := eventOf(digest);
    LatestInSuffix(w, log, k, nonce, if event.Some? then event.value else "");
    if NonceAt(w, nonce).Some? {
      RememberedNonce(w, log, k, nonce, digest, eventOf);
    } else {
      RememberedEvent(w, log, k, nonce, digest, event);
    }
  }

  lemma RememberedEvent(w: seq<Seen>, log: seq<Seen>, k: nat, nonce: string, digest: string, event: Option<string>)
    requires k <= |log| && w == log[k..] && Known(w, nonce, event) && NonceAt(w, nonce).None?
    requires event.Some? && EventAt(w, event.value).Some? ==> EventAt(log, event.value) == Some(k + EventAt(w, event.value).value)
    ensures Judge(w, nonce, digest, event) == Judge(log, nonce, digest, event)
  {
    var j := EventAt(w, event.value).value;
    assert w[j] == log[k + j];
    EventAlone(w, nonce, digest, event);
    EventAlone(log, nonce, digest, event);
  }

  lemma RememberedNonce(w: seq<Seen>, log: seq<Seen>, k: nat, nonce: string, digest: string, eventOf: EventOf)
    requires k <= |log| && w == log[k..] && Derived(log, eventOf)
    requires NonceAt(w, nonce).Some? && NonceAt(log, nonce) == Some(k + NonceAt(w, nonce).value)
    requires eventOf(digest).Some? && EventAt(w, eventOf(digest).value).Some? ==>
               EventAt(log, eventOf(digest).value) == Some(k + EventAt(w, eventOf(digest).value).value)
    ensures Judge(w, nonce, digest, eventOf(digest)) == Judge(log, nonce, digest, eventOf(digest))
  {
    var i := NonceAt(w, nonce).value;
    assert w[i] == log[k + i];
    if w[i].digest == digest {
      NonceRemembered(w, nonce, eventOf(digest), eventOf);
      SameRows(w, log, k, nonce, digest, eventOf(digest).value);
    }
  }

  /** Two logs with the same latest entries for a nonce and an event judge alike. */
  lemma SameRows(w: seq<Seen>, log: seq<Seen>, k: nat, nonce: string, digest: string, event: string)
    requires k <= |log| && w == log[k..]
    requires var i := NonceAt(w, nonce); i.Some? && NonceAt(log, nonce) == Some(k + i.value)
    requires var j := EventAt(w, event); j.Some? && EventAt(log, event) == Some(k + j.value)
    ensures Judge(w, nonce, digest, Some(event)) == Judge(log, nonce, digest, Some(event))
  {
  }

  /** A remembered nonce under the same event keeps the event remembered too. */
  lemma NonceRemembered(w: seq<Seen>, nonce: string, event: Option<string>, eventOf: EventOf)
    requires Derived(w, eventOf) && NonceAt(w, nonce).Some?
    ensures var i := NonceAt(w, nonce).value;
            && eventOf(w[i].digest) == Some(w[i].event)
            && (event == Some(w[i].event) ==> EventAt(w, event.value).Some?)
  {
  }

  /** An event whose latest entry came under another nonce is a conflict. */
  lemma EventAlone(log: seq<Seen>, nonce: string, digest: string, event: Option<string>)
    requires event.Some? && EventAt(log, event.value).Some?
    requires log[EventAt(log, event.value).value].nonce != nonce
    ensures Judge(log, nonce, digest, event) == Conflict
  {
  }

  lemma ForgottenDiffers(log: seq<Seen>, nonce: string, digest: string, eventOf: EventOf)
    requires Derived(log, eventOf)
    requires !Known(Window(log), nonce, eventOf(digest)) && Known(log, nonce, eventOf(digest))
    ensures Judge(Window(log), nonce, digest, eventOf(digest)) != Judge(log, nonce, digest, eventOf(digest))
  {
    NeverSeen(Window(log), nonce, eventOf(digest));
    var i :| 0 <= i < |log| && (log[i].nonce == nonce || Some(log[i].event) == eventOf(digest));
    var n := NonceAt(log, nonce);
    if n.Some? { assert eventOf(log[n.value].digest) == Some(log[n.value].event); }
  }

  /** An accepted pair is a duplicate, and its nonce under another body or its event
      under another nonce or body a conflict, until 10,000 newer events came in. */
  lemma AcceptedIsRemembered(log: seq<Seen>, k: nat, nonce: string, digest: string, eventOf: EventOf)
    requires Distinct(Window(log)) && Derived(log, eventOf)
    requires k < |log| && |log| - k <= 10_000
    requires log[k].nonce == nonce || Some(log[k].event) == eventOf(digest)
    ensures Judge(Window(log), nonce, digest, eventOf(digest))
            == if log[k].nonce == nonce && log[k].digest == digest then Admitted(true) else Conflict
  {
    var w := Window(log);
    var i := k - (|log| - |w|);
    assert w[i] == log[k];
    assert eventOf(log[k].digest) == Some(log[k].event);
    var n := NonceAt(w, nonce);
    if eventOf(digest).Some? { var v := EventAt(w, eventOf(digest).value); }
  }
}
