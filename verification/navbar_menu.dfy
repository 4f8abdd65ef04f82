/** The hover menu: one `active` value, held by the page, names the item whose
    panel is open, or is null when none is. Hovering an item and leaving the
    menu are the only events. */
module NavbarMenu {
  import opened Sequences

  datatype Option<T> = None | Some(value: T)

  /** The page's `active` state: an item's name, or null. */
  type Active = Option<string>

  datatype Event = Enter(item: string) | Leave

  /** The state after one event: entering an item makes it active, leaving the
      menu clears it. Neither looks at the state before. */
  function Step(active: Active, e: Event): Active
  {
    match e
    case Enter(item) => Some(item)
    case Leave => None
  }

  /** Every item mounts its animated wrapper as soon as any item is active. */
  predicate WrapperMounted(active: Active)
  {
    active != None
  }

  /** An item's panel is rendered inside the wrapper, only for the active item. */
  predicate PanelShown(active: Active, item: string)
  {
    WrapperMounted(active) && active.value == item
  }

  /** The items, among `items`, whose panel is shown. */
  function VisiblePanels(active: Active, items: seq<string>): (r: seq<string>)
    ensures |r| <= |items|
    ensures forall x :: x in r ==> PanelShown(active, x)
  {
    if items == [] then []
    else (if PanelShown(active, items[0]) then [items[0]] else []) + VisiblePanels(active, items[1..])
  }

  /** The state after a whole sequence of events. */
  function Run(active: Active, events: seq<Event>): Active
    decreases |events|
  {
    if events == [] then active else Run(Step(active, events[0]), events[1..])
  }

  /** The state after each event of a sequence, in order. */
  function Trace(active: Active, events: seq<Event>): (r: seq<Active>)
    ensures |r| == |events|
    decreases |events|
  {
    if events == [] then []
    else [Step(active, events[0])] + Trace(Step(active, events[0]), events[1..])
  }

  // ---------------------------------------------------------------------------
  // Properties.

  /** Entering an item makes it active and leaving makes nothing active,
      whatever was active before. */
  lemma StepIgnoresPrevious(a: Active, b: Active, e: Event)
    ensures Step(a, e) == Step(b, e)
    ensures e.Enter? ==> Step(a, e) == Some(e.item)
    ensures e.Leave? ==> Step(a, e) == None
  {
  }

  /** A panel is shown exactly for the active item, and none at all while no
      item is active. */
  lemma PanelShownIffActive(active: Active, item: string)
    ensures PanelShown(active, item) <==> active == Some(item)
    ensures active == None ==> !PanelShown(active, item)
  {
  }

  /** Among distinct items at most one panel is visible: exactly the active
      item's, when it is one of them. */
  lemma {:induction false} AtMostOnePanel(active: Active, items: seq<string>)
    requires NoDuplicates(items)
    ensures VisiblePanels(active, items) == if active.Some? && active.value in items then [active.value] else []
    ensures |VisiblePanels(active, items)| <= 1
    decreases |items|
  {
    if items != [] {
      assert NoDuplicates(items[1..]) by {
        forall i, j | 0 <= i < j < |items[1..]| ensures items[1..][i] != items[1..][j] {
          assert items[1..][i] == items[i + 1] && items[1..][j] == items[j + 1];
        }
      }
      AtMostOnePanel(active, items[1..]);
      assert items == [items[0]] + items[1..];
      if PanelShown(active, items[0]) {
        assert items[0] !in items[1..] by {
          forall k | 0 <= k < |items[1..]| ensures items[1..][k] != items[0] {
            assert items[1..][k] == items[k + 1];
          }
        }
      }
    }
  }

  /** The last event decides: after a non-empty sequence of events the state is
      whatever that event sets, regardless of the state the sequence began in. */
  lemma {:induction false} LastEventDecides(active: Active, events: seq<Event>)
    requires events != []
    ensures Run(active, events) == Step(active, events[|events| - 1])
    decreases |events|
  {
    if |events| > 1 {
      LastEventDecides(Step(active, events[0]), events[1..]);
      assert events[1..][|events[1..]| - 1] == events[|events| - 1];
    }
  }

  /** Each state along a sequence of events is the one its own event sets, so
      the state is null after an event exactly when that event was a leave. */
  lemma {:induction false} TraceFollowsEvents(active: Active, events: seq<Event>)
    ensures forall k :: 0 <= k < |events| ==> Trace(active, events)[k] == Step(None, events[k])
    ensures forall k :: 0 <= k < |events| ==> (Trace(active, events)[k] == None <==> events[k] == Leave)
    decreases |events|
  {
    if events != [] {
      var rest := Trace(Step(active, events[0]), events[1..]);
      TraceFollowsEvents(Step(active, events[0]), events[1..]);
      forall k | 0 <= k < |events| ensures Trace(active, events)[k] == Step(None, events[k]) {
        if k > 0 {
          assert Trace(active, events)[k] == rest[k - 1];
          assert events[1..][k - 1] == events[k];
        }
      }
    }
  }

  /** Hovering A and then B passes straight from A to B: no state in between
      is null. */
  lemma EnterThenEnter(active: Active, a: string, b: string)
    ensures Trace(active, [Enter(a), Enter(b)]) == [Some(a), Some(b)]
    ensures Run(active, [Enter(a), Enter(b)]) == Some(b)
  {
    assert [Enter(a), Enter(b)][1..] == [Enter(b)];
    assert [Enter(b)][1..] == [];
    LastEventDecides(active, [Enter(a), Enter(b)]);
  }

  /** The page's `active` variable, changed in place by the menu's handlers. */
  class MenuState {
    var active: Active

    constructor ()
      ensures active == None
    {
      active := None;
    }

    /** An item's mouse-enter handler. */
    method OnMouseEnter(item: string)
      modifies this
      ensures active == Step(old(active), Enter(item))
    {
      active := Some(item);
    }

    /** The menu's mouse-leave handler. */
    method OnMouseLeave()
      modifies this
      ensures active == Step(old(active), Leave)
    {
      active := None;
    }

    /** Whether `item` currently shows its panel. */
    method IsPanelShown(item: string) returns (shown: bool)
      ensures shown == PanelShown(active, item)
    {
      shown := active != None && active.value == item;
    }
  }
}
