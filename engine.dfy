/** engine.py: the `Events` key-state bookkeeping. The window, the main loop, the clock and the
    QUIT path (`pg.quit`, `sys.exit`) are not modelled; `pg.event.get()` becomes the batch of
    events handed to `Update`. */
module Engine {

  /** The keys `Events` maps, and every other key by its code. */
  datatype Key = Up | Left | Down | Right | Z | X | A | S | OtherKey(code: int)

  datatype EventType = KeyDownEvent | KeyUpEvent | OtherEvent(code: int)

  datatype Event = Event(kind: EventType, key: Key)

  /** The key-to-action table set up by `Events.__init__`. */
  function DefaultMappings(): map<Key, string>
  {
    map[Up := "up", Left := "left", Down := "down", Right := "right",
        Z := "jump", X := "spin", A := "run", S := "interact"]
  }

  /** The two lists `Events` keeps. */
  datatype KeyState = KeyState(pressed: seq<string>, justPressed: seq<string>)

  predicate NoDuplicates(s: seq<string>)
  {
    forall i, j :: 0 <= i < j < |s| ==> s[i] != s[j]
  }

  /** `if a not in s: s.append(a)` */
  function AppendNew(s: seq<string>, a: string): (r: seq<string>)
    ensures a in r
    ensures forall b :: b != a ==> (b in r <==> b in s)
    ensures NoDuplicates(s) ==> NoDuplicates(r)
  {
    if a in s then s else s + [a]
  }

  lemma NoDuplicatesTail(s: seq<string>)
    requires |s| > 0
    ensures NoDuplicates(s) ==> NoDuplicates(s[1..]) && s[0] !in s[1..]
  {
    if NoDuplicates(s) {
      forall i, j | 0 <= i < j < |s| - 1 ensures s[1..][i] != s[1..][j] {
        assert s[1..][i] == s[i + 1] && s[1..][j] == s[j + 1];
      }
    }
  }

  /** Python's `list.remove`: drops the first occurrence. */
  function RemoveFirst(s: seq<string>, a: string): (r: seq<string>)
    requires a in s
    ensures |r| == |s| - 1
    ensures forall b :: b != a ==> (b in r <==> b in s)
    ensures NoDuplicates(s) ==> NoDuplicates(r) && a !in r
  {
    if s[0] == a then s[1..]
    else
      var tail := RemoveFirst(s[1..], a);
      var r := [s[0]] + tail;
      assert forall i :: 1 <= i < |r| ==> r[i] == tail[i - 1];
      NoDuplicatesTail(s);
      r
  }

  /** The event's action, when it is a key press or release of a mapped key. */
  function ActionOf(mappings: map<Key, string>, ev: Event): (r: string)
    requires ev.key in mappings
  {
    mappings[ev.key]
  }

  predicate Handled(mappings: map<Key, string>, ev: Event)
  {
    (ev.kind == KeyDownEvent || ev.kind == KeyUpEvent) && ev.key in mappings
  }

  /** One pass of the loop in `Events.update`. */
  function Handle(mappings: map<Key, string>, st: KeyState, ev: Event): (r: KeyState)
    ensures !Handled(mappings, ev) ==> r == st
    ensures ev.kind != KeyDownEvent ==> r.justPressed == st.justPressed
    ensures Handled(mappings, ev) && ev.kind == KeyDownEvent ==>
      ActionOf(mappings, ev) in r.pressed && ActionOf(mappings, ev) in r.justPressed
    ensures Handled(mappings, ev) && ev.kind == KeyUpEvent && NoDuplicates(st.pressed) ==>
      ActionOf(mappings, ev) !in r.pressed
    ensures forall b :: (Handled(mappings, ev) ==> b != ActionOf(mappings, ev)) ==>
      (b in r.pressed <==> b in st.pressed) && (b in r.justPressed <==> b in st.justPressed)
    ensures NoDuplicates(st.pressed) ==> NoDuplicates(r.pressed)
    ensures NoDuplicates(st.justPressed) ==> NoDuplicates(r.justPressed)
  {
    if Handled(mappings, ev) then
      var action := mappings[ev.key];
      if ev.kind == KeyDownEvent then
        KeyState(AppendNew(st.pressed, action), AppendNew(st.justPressed, action))
      else
        KeyState(if action in st.pressed then RemoveFirst(st.pressed, action) else st.pressed, st.justPressed)
    else st
  }

  /** The events of a batch handled in order. */
  function HandleAll(mappings: map<Key, string>, st: KeyState, batch: seq<Event>): KeyState
  {
    if batch == [] then st
    else Handle(mappings, HandleAll(mappings, st, batch[..|batch| - 1]), batch[|batch| - 1])
  }

  /** What `Events.update` leaves: `just_pressed` emptied, then the batch handled. */
  function AfterUpdate(mappings: map<Key, string>, pressed: seq<string>, batch: seq<Event>): KeyState
  {
    HandleAll(mappings, KeyState(pressed, []), batch)
  }

  /** Neither list ever holds an action twice. */
  lemma {:induction false} HandleAllKeepsNoDuplicates(mappings: map<Key, string>, st: KeyState, batch: seq<Event>)
    ensures NoDuplicates(st.pressed) ==> NoDuplicates(HandleAll(mappings, st, batch).pressed)
    ensures NoDuplicates(st.justPressed) ==> NoDuplicates(HandleAll(mappings, st, batch).justPressed)
  {
    if batch != [] {
      HandleAllKeepsNoDuplicates(mappings, st, batch[..|batch| - 1]);
    }
  }

  predicate IsPressOf(mappings: map<Key, string>, ev: Event, action: string)
  {
    ev.kind == KeyDownEvent && ev.key in mappings && mappings[ev.key] == action
  }

  predicate IsReleaseOf(mappings: map<Key, string>, ev: Event, action: string)
  {
    ev.kind == KeyUpEvent && ev.key in mappings && mappings[ev.key] == action
  }

  /** After `update`, an action is just-pressed exactly when the batch holds a press of one of
      its keys: what was just-pressed before the batch is forgotten. */
  lemma {:induction false} JustPressedIff(mappings: map<Key, string>, pressed: seq<string>, batch: seq<Event>, action: string)
    ensures action in AfterUpdate(mappings, pressed, batch).justPressed <==>
      exists i :: 0 <= i < |batch| && IsPressOf(mappings, batch[i], action)
  {
    if batch != [] {
      var init := batch[..|batch| - 1];
      JustPressedIff(mappings, pressed, init, action);
      assert forall i :: 0 <= i < |init| ==> init[i] == batch[i];
      if exists i :: 0 <= i < |batch| && IsPressOf(mappings, batch[i], action) {
        var i :| 0 <= i < |batch| && IsPressOf(mappings, batch[i], action);
        if i < |init| {
          assert IsPressOf(mappings, init[i], action);
        }
      }
    }
  }

  /** The last press or release of `action` in the batch, if any. */
  function LastTouch(mappings: map<Key, string>, batch: seq<Event>, action: string): (r: EventType)
  {
    if batch == [] then OtherEvent(0)
    else if IsPressOf(mappings, batch[|batch| - 1], action) then KeyDownEvent
    else if IsReleaseOf(mappings, batch[|batch| - 1], action) then KeyUpEvent
    else LastTouch(mappings, batch[..|batch| - 1], action)
  }

  /** After `update`, an action is pressed exactly when its last press/release in the batch was
      a press, or the batch does not touch it and it was pressed before. So a press followed by
      a release in one batch leaves the action just-pressed but not pressed. */
  lemma {:induction false} PressedIff(mappings: map<Key, string>, st: KeyState, batch: seq<Event>, action: string)
    requires NoDuplicates(st.pressed)
    ensures action in HandleAll(mappings, st, batch).pressed <==>
      LastTouch(mappings, batch, action) == KeyDownEvent ||
      (LastTouch(mappings, batch, action).OtherEvent? && action in st.pressed)
  {
    if batch != [] {
      PressedIff(mappings, st, batch[..|batch| - 1], action);
      HandleAllKeepsNoDuplicates(mappings, st, batch[..|batch| - 1]);
    }
  }

  /** A key pressed and released within one batch leaves its action just-pressed but not
      pressed. */
  lemma PressAndReleaseInOneBatch(mappings: map<Key, string>, pressed: seq<string>, k: Key)
    requires k in mappings && NoDuplicates(pressed)
    ensures var after := AfterUpdate(mappings, pressed, [Event(KeyDownEvent, k), Event(KeyUpEvent, k)]);
      mappings[k] in after.justPressed && mappings[k] !in after.pressed
  {
    var batch := [Event(KeyDownEvent, k), Event(KeyUpEvent, k)];
    assert batch[..1] == [Event(KeyDownEvent, k)];
    assert batch[..1][..0] == [];
    HandleAllKeepsNoDuplicates(mappings, KeyState(pressed, []), batch[..1]);
  }

  /** `Events`: the action table and the two lists `update` rewrites. */
  class Events {
    const mappings: map<Key, string>
    var pressed: seq<string>
    var justPressed: seq<string>

    /** The invariant `update` keeps: neither list holds an action twice. */
    predicate Valid()
      reads this
    {
      NoDuplicates(pressed) && NoDuplicates(justPressed)
    }

    constructor ()
      ensures mappings == DefaultMappings() && pressed == [] && justPressed == []
      ensures Valid()
    {
      mappings := DefaultMappings();
      pressed := [];
      justPressed := [];
    }

    /** `Events.update` over one batch of events. */
    method Update(batch: seq<Event>)
      requires Valid()
      modifies this
      ensures KeyState(pressed, justPressed) == AfterUpdate(mappings, old(pressed), batch)
      ensures Valid()
    {
      justPressed := [];
      ghost var start := KeyState(pressed, justPressed);
      var i := 0;
      while i < |batch|
        invariant 0 <= i <= |batch|
        invariant KeyState(pressed, justPressed) == HandleAll(mappings, start, batch[..i])
      {
        assert batch[..i + 1][..i] == batch[..i];
        var event := batch[i];
        if (event.kind == KeyDownEvent || event.kind == KeyUpEvent) && event.key in mappings {
          var action := mappings[event.key];
          if event.kind == KeyDownEvent {
            if action !in pressed { pressed := pressed + [action]; }
            if action !in justPressed { justPressed := justPressed + [action]; }
          } else {
            if action in pressed { pressed := RemoveFirst(pressed, action); }
          }
        }
        i := i + 1;
      }
      assert batch[..|batch|] == batch;
      HandleAllKeepsNoDuplicates(mappings, start, batch);
    }

    /** `Events.is_action_pressed` */
    function IsActionPressed(action: string): (r: bool)
      reads this
      ensures r <==> action in pressed
    {
      action in pressed
    }

    /** `Events.is_action_just_pressed` */
    function IsActionJustPressed(action: string): (r: bool)
      reads this
      ensures r <==> action in justPressed
    {
      action in justPressed
    }
  }
}
