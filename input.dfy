/** The window's keyboard state machine: the set of keys currently held and
    the set of keys whose toggle is on, and how one key event changes them. */
module Input {

  /** The action of a key event. `Other` is any action the handler ignores
      (a repeat, for instance). */
  datatype Action = Press | Release | Other

  /** Key identifiers the frame logic reads. The values are the key symbols
      of the windowing backend (pyglet); only their identity matters. */
  const Space: int := 0x20
  const Up: int := 0xff52
  const Down: int := 0xff54
  const G: int := 0x67
  const B: int := 0x62
  const Number3: int := 0x33
  const W: int := 0x77

  /** One key event as the host delivers it (the modifiers are unused). */
  datatype Event = Event(key: int, action: Action)

  /** `held`: keys currently down. `toggled`: keys whose toggle is on. */
  datatype KeyState = KeyState(held: set<int>, toggled: set<int>)

  /** The effect of one key event. A press adds the key to `held` and flips
      its membership in `toggled`; a release removes it from `held` (a no-op
      when it is not there) and leaves `toggled` alone; any other action
      changes nothing. No other key is ever affected. */
  function Step(s: KeyState, e: Event): (r: KeyState)
    ensures forall k :: k != e.key ==> (k in r.held <==> k in s.held)
    ensures forall k :: k != e.key ==> (k in r.toggled <==> k in s.toggled)
    ensures e.action == Press ==> e.key in r.held && (e.key in r.toggled <==> e.key !in s.toggled)
    ensures e.action == Release ==> e.key !in r.held && r.toggled == s.toggled
    ensures e.action == Other ==> r == s
  {
    match e.action
    case Press =>
      var toggled := if e.key in s.toggled then s.toggled - {e.key} else s.toggled + {e.key};
      KeyState(s.held + {e.key}, toggled)
    case Release =>
      KeyState(s.held - {e.key}, s.toggled)
    case Other =>
      s
  }

  /** The state after a sequence of key events, applied in order. */
  function Replay(s: KeyState, events: seq<Event>): KeyState
  {
    if events == [] then s
    else Step(Replay(s, events[..|events| - 1]), events[|events| - 1])
  }

  /** The number of presses of key `k` in `events`. */
  function Presses(events: seq<Event>, k: int): nat
  {
    if events == [] then 0
    else Presses(events[..|events| - 1], k) + (if events[|events| - 1] == Event(k, Press) then 1 else 0)
  }

  /** Whether `k` is down according to the last press or release of `k` in
      `events`; `initial` when there is none. */
  function LastHeld(events: seq<Event>, k: int, initial: bool): bool
  {
    if events == [] then initial
    else
      var e := events[|events| - 1];
      if e == Event(k, Press) then true
      else if e == Event(k, Release) then false
      else LastHeld(events[..|events| - 1], k, initial)
  }

  /** Toggle law: after any sequence of events, `k` is toggled exactly when
      it was toggled initially XOR it was pressed an odd number of times.
      Releases and other keys' events never matter. */
  lemma {:induction false} ToggleLaw(s: KeyState, events: seq<Event>, k: int)
    ensures k in Replay(s, events).toggled <==> ((k in s.toggled) != (Presses(events, k) % 2 == 1))
  {
    if events != [] {
      ToggleLaw(s, events[..|events| - 1], k);
    }
  }

  /** Held law: whether `k` is held depends only on the last press or
      release of `k`, not on how many presses there were. */
  lemma {:induction false} HeldLaw(s: KeyState, events: seq<Event>, k: int)
    ensures k in Replay(s, events).held <==> LastHeld(events, k, k in s.held)
  {
    if events != [] {
      HeldLaw(s, events[..|events| - 1], k);
    }
  }

  /** Events that never name `k` leave both memberships of `k` alone. */
  lemma {:induction false} UntouchedKey(s: KeyState, events: seq<Event>, k: int)
    requires forall i :: 0 <= i < |events| ==> events[i].key != k
    ensures k in Replay(s, events).held <==> k in s.held
    ensures k in Replay(s, events).toggled <==> k in s.toggled
  {
    if events != [] {
      UntouchedKey(s, events[..|events| - 1], k);
    }
  }

  /** Two presses of the same key restore the toggle set. */
  lemma DoublePressRestoresToggles(s: KeyState, k: int)
    ensures Replay(s, [Event(k, Press), Event(k, Press)]).toggled == s.toggled
  {
    var e := Event(k, Press);
    var events := [e, e];
    assert events[..1] == [e] && [e][..0] == [];
    assert Replay(s, [e]) == Step(s, e);
    assert Replay(s, events) == Step(Replay(s, [e]), e);
    assert Step(Step(s, e), e).toggled == s.toggled;
  }

  /** Releasing a key that is not held changes nothing and is no error. */
  lemma ReleaseOfAbsentKey(s: KeyState, k: int)
    requires k !in s.held
    ensures Step(s, Event(k, Release)) == s
  {
  }
}
