/** The pure part of WebSocketService.handleMessage: the correlation key derived
    from a frame's type, and what routing one frame does to the table of waiting
    requests and to the log of resumptions and handler calls. */
module Routing {

  import opened Wrappers

  newtype byte = x: int | 0 <= x < 256
  type Bytes = seq<byte>

  /** A waiting request (a CheckedContinuation), known by an id. */
  type WaiterId = nat

  /** A registered message handler (a closure), known by an id. */
  type HandlerId = nat

  /** An inbound frame: its raw data, and the string JSONSerialization finds under
      "type" when the data is a JSON object with a string "type" (None otherwise). */
  datatype Frame = Frame(data: Bytes, jsonType: Option<string>)

  /** What routing does that outlives it: a waiter resumed with data, or a handler
      called with data. */
  datatype Event = Resumed(waiter: WaiterId, data: Bytes) | Handled(handler: HandlerId, data: Bytes)

  // ---------------------------------------------------------------------------
  // Key normalisation: `type.replacingOccurrences(of: ".success", with: "")`

  const SuccessSuffix: string := ".success"

  predicate OccursAt(s: string, pat: string, i: nat) {
    i + |pat| <= |s| && s[i..i + |pat|] == pat
  }

  predicate Contains(s: string, pat: string) {
    exists i: nat | i <= |s| :: OccursAt(s, pat, i)
  }

  /** Removes every occurrence of ".success", scanning left to right and resuming
      after each removed occurrence. */
  function Normalize(s: string): (r: string)
    ensures |r| <= |s|
    decreases |s|
  {
    if |s| < |SuccessSuffix| then s
    else if s[..|SuccessSuffix|] == SuccessSuffix then Normalize(s[|SuccessSuffix|..])
    else [s[0]] + Normalize(s[1..])
  }

  lemma ContainsTail(s: string, pat: string)
    requires |s| > 0 && Contains(s[1..], pat)
    ensures Contains(s, pat)
  {
    var i: nat :| i <= |s[1..]| && OccursAt(s[1..], pat, i);
    assert i + 1 + |pat| <= |s|;
    assert s[i + 1..i + 1 + |pat|] == s[1..][i..i + |pat|];
    assert OccursAt(s, pat, i + 1);
  }

  lemma TailContains(s: string, pat: string)
    requires |s| > 0 && Contains(s, pat) && !OccursAt(s, pat, 0)
    ensures Contains(s[1..], pat)
  {
    var i: nat :| i <= |s| && OccursAt(s, pat, i);
    assert i > 0;
    assert i + |pat| <= |s|;
    assert s[1..][i - 1..i - 1 + |pat|] == s[i..i + |pat|];
    assert OccursAt(s[1..], pat, i - 1);
  }

  /** A type without ".success" is its own key. */
  lemma {:induction false} NormalizeWithoutSuffix(s: string)
    requires !Contains(s, SuccessSuffix)
    ensures Normalize(s) == s
    decreases |s|
  {
    if |s| >= |SuccessSuffix| {
      assert !OccursAt(s, SuccessSuffix, 0);
      if Contains(s[1..], SuccessSuffix) {
        ContainsTail(s, SuccessSuffix);
      }
      NormalizeWithoutSuffix(s[1..]);
      assert s == [s[0]] + s[1..];
    }
  }

  /** A type with ".success" in it loses at least one occurrence. */
  lemma {:induction false} NormalizeWithSuffix(s: string)
    requires Contains(s, SuccessSuffix)
    ensures |Normalize(s)| < |s|
    decreases |s|
  {
    var i: nat :| OccursAt(s, SuccessSuffix, i);
    assert |s| >= |SuccessSuffix|;
    if s[..|SuccessSuffix|] != SuccessSuffix {
      assert !OccursAt(s, SuccessSuffix, 0);
      TailContains(s, SuccessSuffix);
      NormalizeWithSuffix(s[1..]);
    }
  }

  /** Both directions: normalisation leaves a type unchanged exactly when it has
      no ".success" in it. */
  lemma NormalizeFixpointIff(s: string)
    ensures Normalize(s) == s <==> !Contains(s, SuccessSuffix)
  {
    if Contains(s, SuccessSuffix) {
      NormalizeWithSuffix(s);
    } else {
      NormalizeWithoutSuffix(s);
    }
  }

  /** No proper suffix of ".success" starts it again: its first character, '.',
      occurs nowhere else in it. */
  lemma SuffixDotOnlyFirst(k: nat)
    requires 1 <= k < |SuccessSuffix|
    ensures SuccessSuffix[k] != '.'
  {
  }

  /** The reply type `X + ".success"` of a request type X without ".success" maps
      back to X. */
  lemma {:induction false} NormalizeReplyType(x: string)
    requires !Contains(x, SuccessSuffix)
    ensures Normalize(x + SuccessSuffix) == x
    decreases |x|
  {
    var s := x + SuccessSuffix;
    if x == [] {
      assert s == SuccessSuffix;
      assert s[|SuccessSuffix|..] == [];
    } else {
      if |x| >= |SuccessSuffix| {
        assert !OccursAt(x, SuccessSuffix, 0);
        assert x[..|SuccessSuffix|] == s[..|SuccessSuffix|];
      } else {
        SuffixDotOnlyFirst(|x|);
        assert s[..|SuccessSuffix|][|x|] == '.' != SuccessSuffix[|x|];
      }
      assert s[..|SuccessSuffix|] != SuccessSuffix;
      if Contains(x[1..], SuccessSuffix) {
        ContainsTail(x, SuccessSuffix);
      }
      NormalizeReplyType(x[1..]);
      assert s[1..] == x[1..] + SuccessSuffix;
      assert x == [x[0]] + x[1..];
    }
  }

  /** Normalisation is not idempotent: removing an inner ".success" can join the
      characters around it into a new one. */
  lemma NormalizeNotIdempotent()
    ensures Normalize(".suc.successcess") == ".success"
    ensures Normalize(Normalize(".suc.successcess")) == ""
  {
    var w := ".suc.successcess";
    assert w[..8][4] != SuccessSuffix[4];
    assert w[1..][..8][0] != SuccessSuffix[0];
    assert w[2..][..8][0] != SuccessSuffix[0];
    assert w[3..][..8][0] != SuccessSuffix[0];
    assert w[4..][..8] == SuccessSuffix;
    assert w[4..][8..] == "cess";
    assert Normalize("cess") == "cess";
    assert Normalize(w[3..]) == "c" + Normalize(w[4..]);
    assert Normalize(w[2..]) == "u" + Normalize(w[3..]);
    assert Normalize(w[1..]) == "s" + Normalize(w[2..]);
    assert Normalize(w) == "." + Normalize(w[1..]);
    assert Normalize(w[4..]) == "cess";
    SuccessSpelledOut();
    assert Normalize(w) == SuccessSuffix;
    NormalizeSuffixAlone();
  }

  /** The characters left around the inner occurrence spell ".success". */
  lemma SuccessSpelledOut()
    ensures "." + ("s" + ("u" + ("c" + "cess"))) == SuccessSuffix
  {
  }

  /** ".success" on its own normalises to the empty key. */
  lemma NormalizeSuffixAlone()
    ensures Normalize(SuccessSuffix) == ""
  {
    assert SuccessSuffix[..|SuccessSuffix|] == SuccessSuffix;
    assert SuccessSuffix[|SuccessSuffix|..] == "";
  }

  // ---------------------------------------------------------------------------
  // Routing one frame

  /** The result of routing: the table of waiting requests afterwards, and the
      events routing produced, in order. */
  datatype Routed = Routed(pending: map<string, WaiterId>, events: seq<Event>)

  /** handleMessage on a frame: with a string type T, the waiter under
      Normalize(T) is removed and resumed with the whole frame data, and then the
      handler registered under T itself is called with the same data. */
  function Deliver(pending: map<string, WaiterId>, handlers: map<string, HandlerId>, f: Frame): (r: Routed)
    ensures r.pending.Keys <= pending.Keys
    ensures |r.events| <= 2
  {
    match f.jsonType
    case None => Routed(pending, [])
    case Some(t) =>
      var key := Normalize(t);
      var resumed := if key in pending then [Resumed(pending[key], f.data)] else [];
      var handled := if t in handlers then [Handled(handlers[t], f.data)] else [];
      Routed(pending - {key}, resumed + handled)
  }

  /** A frame without a string type changes nothing. */
  lemma DeliverUntyped(pending: map<string, WaiterId>, handlers: map<string, HandlerId>, data: Bytes)
    ensures Deliver(pending, handlers, Frame(data, None)) == Routed(pending, [])
  {
  }

  /** The entry under the frame's key alone leaves the table; every other entry
      stays with its waiter. */
  lemma DeliverRemovesOnlyKey(pending: map<string, WaiterId>, handlers: map<string, HandlerId>, data: Bytes, t: string)
    ensures Deliver(pending, handlers, Frame(data, Some(t))).pending.Keys == pending.Keys - {Normalize(t)}
    ensures forall k | k in pending && k != Normalize(t) ::
      Deliver(pending, handlers, Frame(data, Some(t))).pending[k] == pending[k]
  {
  }

  /** A waiter just registered under a key, answered by a frame whose type
      normalises to that key: the entry is gone, every other entry is as before
      the registration, and that waiter is resumed with the frame data before
      the handler for `t` is called. */
  lemma DeliverAnswers(pending: map<string, WaiterId>, handlers: map<string, HandlerId>, key: string, w: WaiterId, data: Bytes, t: string)
    requires Normalize(t) == key
    ensures var r := Deliver(pending[key := w], handlers, Frame(data, Some(t)));
      && r.pending == pending - {key}
      && r.events == [Resumed(w, data)] + (if t in handlers then [Handled(handlers[t], data)] else [])
  {
    assert pending[key := w] - {key} == pending - {key};
  }

  /** The waiter under the key is resumed, first, with the whole frame data; the
      handler for the raw type is called whether or not a waiter was resumed. */
  lemma DeliverEvents(pending: map<string, WaiterId>, handlers: map<string, HandlerId>, data: Bytes, t: string)
    ensures var e := Deliver(pending, handlers, Frame(data, Some(t))).events;
      && |e| == (if Normalize(t) in pending then 1 else 0) + (if t in handlers then 1 else 0)
      && (Normalize(t) in pending ==> e[0] == Resumed(pending[Normalize(t)], data))
      && (t in handlers ==> e[|e| - 1] == Handled(handlers[t], data))
      && (forall i | 0 <= i < |e| && e[i].Resumed? :: i == 0 && Normalize(t) in pending)
  {
  }

  // ---------------------------------------------------------------------------
  // One-shot resumption

  predicate WasResumed(events: seq<Event>, w: WaiterId) {
    exists i | 0 <= i < |events| :: events[i].Resumed? && events[i].waiter == w
  }

  ghost predicate Injective(pending: map<string, WaiterId>) {
    forall k1, k2 | k1 in pending && k2 in pending && k1 != k2 :: pending[k1] != pending[k2]
  }

  /** Every waiter id below `next` has been handed out; waiting requests hold
      distinct ids; a resumed waiter is no longer waiting; no waiter is resumed twice. */
  ghost predicate OneShot(pending: map<string, WaiterId>, events: seq<Event>, next: WaiterId) {
    && (forall k | k in pending :: pending[k] < next)
    && Injective(pending)
    && (forall i | 0 <= i < |events| && events[i].Resumed? ::
          events[i].waiter < next && events[i].waiter !in pending.Values)
    && (forall i, j | 0 <= i < j < |events| && events[i].Resumed? && events[j].Resumed? ::
          events[i].waiter != events[j].waiter)
  }

  /** Routing resumes only a waiter that was waiting, and it is not waiting after. */
  lemma DeliverResumesWaiting(pending: map<string, WaiterId>, handlers: map<string, HandlerId>, f: Frame)
    requires Injective(pending)
    ensures var r := Deliver(pending, handlers, f);
      forall i | 0 <= i < |r.events| && r.events[i].Resumed? ::
        r.events[i].waiter in pending.Values && r.events[i].waiter !in r.pending.Values
  {
    if f.jsonType.Some? {
      var key := Normalize(f.jsonType.value);
      var r := Deliver(pending, handlers, f);
      if key in pending {
        forall k | k in r.pending ensures r.pending[k] != pending[key] {
          assert k in pending && k != key;
        }
      }
    }
  }

  /** Routing a frame keeps the one-shot discipline. */
  lemma DeliverKeepsOneShot(pending: map<string, WaiterId>, handlers: map<string, HandlerId>, events: seq<Event>, next: WaiterId, f: Frame)
    requires OneShot(pending, events, next)
    ensures var r := Deliver(pending, handlers, f);
      OneShot(r.pending, events + r.events, next)
  {
    var r := Deliver(pending, handlers, f);
    DeliverResumesWaiting(pending, handlers, f);
    assert r.pending.Values <= pending.Values;
    var all := events + r.events;
    forall i, j | 0 <= i < j < |all| && all[i].Resumed? && all[j].Resumed?
      ensures all[i].waiter != all[j].waiter
    {
      if j >= |events| {
        assert all[j] == r.events[j - |events|];
        assert all[j].waiter in pending.Values;
        if i < |events| {
          assert all[i] == events[i];
        } else {
          DeliverEvents(pending, handlers, f.data, f.jsonType.value);
        }
      }
    }
    forall i | 0 <= i < |all| && all[i].Resumed?
      ensures all[i].waiter < next && all[i].waiter !in r.pending.Values
    {
      if i >= |events| {
        assert all[i] == r.events[i - |events|];
      } else {
        assert all[i] == events[i];
      }
    }
  }

  /** Registering a fresh waiter keeps the one-shot discipline, and the waiter it
      replaces under the same key is no longer waiting. */
  lemma RegisterKeepsOneShot(pending: map<string, WaiterId>, events: seq<Event>, next: WaiterId, key: string)
    requires OneShot(pending, events, next)
    ensures OneShot(pending[key := next], events, next + 1)
    ensures key in pending ==> pending[key] !in pending[key := next].Values
  {
    var p := pending[key := next];
    forall k1, k2 | k1 in p && k2 in p && k1 != k2 ensures p[k1] != p[k2] {
      if k1 != key && k2 != key {
        assert p[k1] == pending[k1] && p[k2] == pending[k2];
      }
    }
    forall i | 0 <= i < |events| && events[i].Resumed? ensures events[i].waiter !in p.Values {
      forall k | k in p ensures p[k] != events[i].waiter {
        if k != key {
          assert pending[k] in pending.Values;
        }
      }
    }
  }

  /** Registering under a key and then removing that key leaves the rest of the
      table as it was. */
  lemma RegisterThenRemove(pending: map<string, WaiterId>, key: string, w: WaiterId)
    ensures pending[key := w] - {key} == pending - {key}
  {
  }

  /** A waiter that is not waiting is still not waiting once a fresh one is
      registered. */
  lemma RegisterKeepsAbsent(pending: map<string, WaiterId>, key: string, next: WaiterId, w: WaiterId)
    requires w !in pending.Values && w != next
    ensures w !in pending[key := next].Values
  {
    var p := pending[key := next];
    forall k | k in p ensures p[k] != w {
      if k != key {
        assert pending[k] in pending.Values;
      }
    }
  }

  // ---------------------------------------------------------------------------
  // The serial receive loop over a sequence of frames

  /** Appending two pieces to a log one after the other is appending them joined. */
  lemma AppendTwice(log: seq<Event>, a: seq<Event>, b: seq<Event>)
    ensures log + a + b == log + (a + b)
  {
  }

  /** Routing frames one at a time, in arrival order. */
  function Replay(pending: map<string, WaiterId>, handlers: map<string, HandlerId>, frames: seq<Frame>): (r: Routed)
    ensures r.pending.Keys <= pending.Keys
    ensures |r.events| <= 2 * |frames|
    decreases |frames|
  {
    if frames == [] then Routed(pending, [])
    else
      var first := Deliver(pending, handlers, frames[0]);
      var rest := Replay(first.pending, handlers, frames[1..]);
      Routed(rest.pending, first.events + rest.events)
  }

  /** Arrival order: the effects of earlier frames are complete before later
      frames are routed, so routing a + b is routing a, then b on what a left. */
  lemma {:induction false} ReplayAppend(pending: map<string, WaiterId>, handlers: map<string, HandlerId>, a: seq<Frame>, b: seq<Frame>)
    ensures var ra := Replay(pending, handlers, a);
      var rb := Replay(ra.pending, handlers, b);
      Replay(pending, handlers, a + b) == Routed(rb.pending, ra.events + rb.events)
    decreases |a|
  {
    if a == [] {
      assert a + b == b;
    } else {
      assert (a + b)[0] == a[0];
      assert (a + b)[1..] == a[1..] + b;
      var first := Deliver(pending, handlers, a[0]);
      ReplayAppend(first.pending, handlers, a[1..], b);
    }
  }

  /** Routing one more frame: the frames up to and including frame i are the
      frames before it, then frame i on what they left. */
  lemma ReplayStep(pending: map<string, WaiterId>, handlers: map<string, HandlerId>, frames: seq<Frame>, i: nat)
    requires i < |frames|
    ensures var before := Replay(pending, handlers, frames[..i]);
      var step := Deliver(before.pending, handlers, frames[i]);
      Replay(pending, handlers, frames[..i + 1]) == Routed(step.pending, before.events + step.events)
  {
    ReplayAppend(pending, handlers, frames[..i], [frames[i]]);
    assert frames[..i + 1] == frames[..i] + [frames[i]];
    assert [frames[i]][1..] == [];
    var before := Replay(pending, handlers, frames[..i]);
    var step := Deliver(before.pending, handlers, frames[i]);
    assert Replay(before.pending, handlers, [frames[i]]) == Routed(step.pending, step.events + []);
    assert step.events + [] == step.events;
  }

  /** Push notifications: frames of a type T whose key has no waiter go, in order,
      each to the handler for T, and nobody is resumed. */
  lemma {:induction false} ReplayPushes(pending: map<string, WaiterId>, handlers: map<string, HandlerId>, t: string, payloads: seq<Bytes>)
    requires Normalize(t) !in pending && t in handlers
    ensures var r := Replay(pending, handlers, seq(|payloads|, i requires 0 <= i < |payloads| => Frame(payloads[i], Some(t))));
      && r.pending == pending
      && r.events == seq(|payloads|, i requires 0 <= i < |payloads| => Handled(handlers[t], payloads[i]))
    decreases |payloads|
  {
    var frames := seq(|payloads|, i requires 0 <= i < |payloads| => Frame(payloads[i], Some(t)));
    if payloads != [] {
      ReplayPushes(pending, handlers, t, payloads[1..]);
      assert frames[1..] == seq(|payloads[1..]|, i requires 0 <= i < |payloads[1..]| => Frame(payloads[1..][i], Some(t)));
      assert pending - {Normalize(t)} == pending;
      var tail := seq(|payloads[1..]|, i requires 0 <= i < |payloads[1..]| => Handled(handlers[t], payloads[1..][i]));
      assert [Handled(handlers[t], payloads[0])] + tail
          == seq(|payloads|, i requires 0 <= i < |payloads| => Handled(handlers[t], payloads[i]));
    }
  }

  /** A waiter that is not waiting is never resumed by any later frames. */
  lemma {:induction false} ReplayNeverResumesAbsent(pending: map<string, WaiterId>, handlers: map<string, HandlerId>, frames: seq<Frame>, w: WaiterId)
    requires Injective(pending) && w !in pending.Values
    ensures var r := Replay(pending, handlers, frames);
      !WasResumed(r.events, w) && w !in r.pending.Values
    decreases |frames|
  {
    if frames != [] {
      var first := Deliver(pending, handlers, frames[0]);
      DeliverResumesWaiting(pending, handlers, frames[0]);
      assert first.pending.Values <= pending.Values;
      assert Injective(first.pending);
      ReplayNeverResumesAbsent(first.pending, handlers, frames[1..], w);
      var rest := Replay(first.pending, handlers, frames[1..]);
      var all := first.events + rest.events;
      forall i | 0 <= i < |all| && all[i].Resumed? ensures all[i].waiter != w {
        if i < |first.events| {
          assert all[i] == first.events[i];
        } else {
          assert all[i] == rest.events[i - |first.events|];
        }
      }
    }
  }
}
