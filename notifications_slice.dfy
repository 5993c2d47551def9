/**
 * The notification store of the budgeting client: an ordered list of
 * notification records (display order, most recent last) and a display inset.
 *
 * The new values of the state are computed by the pure functions below
 * (spread, `find` and `filter` in the TypeScript slice); the case reducers, which
 * assign the fields of the store in place, are the methods of class
 * NotificationStore, each proved against those functions.
 */
module NotificationsSlice {

  datatype Option<T> = None | Some(value: T)

  /** The `type` of a notification. `Warning` is accepted but has no handling of its own. */
  datatype NotificationType = Message | Error | Warning

  /** An opaque handle for a callback held by a record; the store never looks inside. */
  datatype Callback = Callback(handle: nat)

  datatype Button = Button(title: string, action: Callback)

  /** A notification as callers submit it; `id` may be missing. */
  datatype Notification = Notification(
    id: Option<string>,
    kind: Option<NotificationType>,
    pre: Option<string>,
    title: Option<string>,
    message: string,
    sticky: Option<bool>,
    timeout: Option<int>,
    button: Option<Button>,
    messageActions: Option<map<string, Callback>>,
    onClose: Option<Callback>,
    internal: Option<string>)

  /** A notification whose id is present, as the store holds them. */
  type NotificationWithId = n: Notification | n.id.Some?
    witness Notification(Some(""), None, None, None, "", None, None, None, None, None, None)

  /** The display-margin offsets; every field absent is the empty inset `{}`. */
  datatype Inset = Inset(bottom: Option<int>, top: Option<int>, right: Option<int>, left: Option<int>)

  const EmptyInset := Inset(None, None, None, None)

  /** The payload of `setNotificationInset`: `null`, or an object whose `inset` may be missing. */
  datatype InsetPayload = NullPayload | Payload(inset: Option<Inset>)

  datatype State = State(notifications: seq<NotificationWithId>, inset: Inset)

  /** The initial state of the slice, which `getInitialState()` also returns. */
  const InitialState := State([], EmptyInset)

  /** The actions the slice's reducer answers to. `Unrelated` stands for every other action. */
  datatype Action =
    | AddNotification(notification: Notification)
    | AddGenericErrorNotification
    | RemoveNotification(id: string)
    | SetNotificationInset(payload: InsetPayload)
    | CloseBudgetFulfilled
    | CloseBudgetUIFulfilled
    | Unrelated

  // ---------------------------------------------------------------------------
  // Predicates over the list of records
  // ---------------------------------------------------------------------------

  ghost predicate HasId(list: seq<NotificationWithId>, id: string)
  {
    exists i :: 0 <= i < |list| && list[i].id == Some(id)
  }

  /** No two records in the list share an id. */
  ghost predicate UniqueIds(list: seq<NotificationWithId>)
  {
    forall i, j :: 0 <= i < j < |list| ==> list[i].id != list[j].id
  }

  /** `sub` is `list` with some elements dropped and the rest kept in order. */
  ghost predicate IsSubsequence(sub: seq<NotificationWithId>, list: seq<NotificationWithId>)
    decreases |list|
  {
    if sub == [] then true
    else if list == [] then false
    else IsSubsequence(sub, list[1..]) || (sub[0] == list[0] && IsSubsequence(sub[1..], list[1..]))
  }

  // ---------------------------------------------------------------------------
  // The values the reducers compute
  // ---------------------------------------------------------------------------

  /**
   * The record `addNotification` stores: the request with its id replaced by
   * `notification.id || generatedId`, so a missing id and the empty string
   * both give way to the generated one.
   */
  function ResolveId(notification: Notification, generatedId: string): (r: NotificationWithId)
    ensures notification.id.Some? && notification.id.value != "" ==> r.id == notification.id
    ensures notification.id == None || notification.id == Some("") ==> r.id == Some(generatedId)
    ensures r.(id := notification.id) == notification
  {
    var id := if notification.id.Some? && notification.id.value != "" then notification.id.value
              else generatedId;
    notification.(id := Some(id))
  }

  /** `list.find(n => n.id === id)`: the first record carrying `id`, if any. */
  function Find(list: seq<NotificationWithId>, id: string): (r: Option<NotificationWithId>)
    ensures r.Some? <==> HasId(list, id)
    ensures r.Some? ==> r.value.id == Some(id)
    ensures r.Some? ==> exists i :: 0 <= i < |list| && list[i] == r.value && !HasId(list[..i], id)
  {
    if list == [] then None
    else if list[0].id == Some(id) then
      assert list[..0] == [];
      Some(list[0])
    else
      var r := Find(list[1..], id);
      assert r.Some? ==> exists i :: 0 <= i < |list| && list[i] == r.value && !HasId(list[..i], id) by {
        if r.Some? {
          var i :| 0 <= i < |list[1..]| && list[1..][i] == r.value && !HasId(list[1..][..i], id);
          assert list[..i + 1] == [list[0]] + list[1..][..i];
          assert list[i + 1] == r.value;
        }
      }
      r
  }

  /** `list.filter(n => n.id !== id)`: the records without `id`, in their original order. */
  function Filter(list: seq<NotificationWithId>, id: string): (r: seq<NotificationWithId>)
    ensures forall n :: n in r <==> n in list && n.id != Some(id)
    ensures forall n :: multiset(r)[n] == if n.id == Some(id) then 0 else multiset(list)[n]
    ensures IsSubsequence(r, list)
  {
    if list == [] then []
    else
      var rest := Filter(list[1..], id);
      assert list == [list[0]] + list[1..];
      assert multiset(list) == multiset([list[0]]) + multiset(list[1..]);
      if list[0].id != Some(id) then
        var r := [list[0]] + rest;
        assert r[1..] == rest;
        assert multiset(r) == multiset([list[0]]) + multiset(rest);
        r
      else
        rest
  }

  /** The tail of a list with distinct ids has distinct ids, none equal to the head's. */
  lemma UniqueIdsTail(list: seq<NotificationWithId>)
    requires UniqueIds(list) && list != []
    ensures UniqueIds(list[1..])
    ensures forall n :: n in list[1..] ==> n.id != list[0].id
  {
  }

  /** The new list of `addNotification`: unchanged on a duplicate id, else the record appended. */
  function Added(list: seq<NotificationWithId>, notification: Notification, generatedId: string): (r: seq<NotificationWithId>)
    ensures HasId(list, ResolveId(notification, generatedId).id.value) ==> r == list
    ensures !HasId(list, ResolveId(notification, generatedId).id.value) ==> r == list + [ResolveId(notification, generatedId)]
  {
    var withId := ResolveId(notification, generatedId);
    if Find(list, withId.id.value).Some? then list else list + [withId]
  }

  /** The new inset of `setNotificationInset`: `payload?.inset ? payload.inset : {}`. */
  function InsetFor(payload: InsetPayload): (r: Inset)
    ensures payload.Payload? && payload.inset.Some? ==> r == payload.inset.value
    ensures payload.NullPayload? || payload.inset.None? ==> r == EmptyInset
  {
    // Every object is truthy in JavaScript, `{}` included: only a missing inset falls back.
    match payload
    case NullPayload => EmptyInset
    case Payload(inset) => if inset.Some? then inset.value else EmptyInset
  }

  /** The text handed to the translation function for the generic error. */
  const GenericErrorText := "Something internally went wrong. You may want to restart the app if anything looks wrong. "
    + "Please report this as a new issue on Github."

  /**
   * The notification that `addGenericErrorNotification` builds; `message` is
   * the translated text.
   */
  function GenericError(message: string): (r: Notification)
    ensures r.id == None && r.kind == Some(Error) && r.message == message
    ensures r.sticky == None && r.timeout == None && r.button == None && r.onClose == None
    ensures r.pre == None && r.title == None && r.messageActions == None && r.internal == None
  {
    Notification(None, Some(Error), None, None, message, None, None, None, None, None, None)
  }

  /** The action creator `addNotification`: it only builds the action object. */
  function AddNotificationCreator(notification: Notification): (a: Action)
    ensures forall s: State, g: string :: Reduce(s, a, g) == s.(notifications := Added(s.notifications, notification, g))
  {
    AddNotification(notification)
  }

  // ---------------------------------------------------------------------------
  // The slice's reducer
  // ---------------------------------------------------------------------------

  /**
   * The reducer `createSlice` builds: one step for `action`, with `generatedId`
   * the id the generator yields if `addNotification` needs one.
   */
  function Reduce(s: State, action: Action, generatedId: string): (r: State)
    ensures action.AddNotification? ==> r.notifications == Added(s.notifications, action.notification, generatedId)
    ensures action.RemoveNotification? ==> r.notifications == Filter(s.notifications, action.id)
    ensures action.AddNotification? || action.RemoveNotification? ==> r.inset == s.inset
    ensures action.SetNotificationInset? ==> r.notifications == s.notifications && r.inset == InsetFor(action.payload)
    ensures action.CloseBudgetFulfilled? || action.CloseBudgetUIFulfilled? ==> r == InitialState
    ensures action.AddGenericErrorNotification? || action.Unrelated? ==> r == s
    ensures UniqueIds(s.notifications) ==> UniqueIds(r.notifications)
  {
    match action
    case AddNotification(notification) =>
      AddKeepsUniqueIds(s.notifications, notification, generatedId);
      s.(notifications := Added(s.notifications, notification, generatedId))
    case AddGenericErrorNotification =>
      // The case reducer only builds an action object and drops it.
      s
    case RemoveNotification(id) =>
      RemoveKeepsUniqueIds(s.notifications, id);
      s.(notifications := Filter(s.notifications, id))
    case SetNotificationInset(payload) => s.(inset := InsetFor(payload))
    case CloseBudgetFulfilled => InitialState
    case CloseBudgetUIFulfilled => InitialState
    case Unrelated => s
  }

  /** A run of the reducer over `steps`, each an action with the id the generator yields for it. */
  function ReduceAll(s: State, steps: seq<(Action, string)>): (r: State)
    decreases |steps|
  {
    if steps == [] then s else ReduceAll(Reduce(s, steps[0].0, steps[0].1), steps[1..])
  }

  // ---------------------------------------------------------------------------
  // Properties of addNotification
  // ---------------------------------------------------------------------------

  /** A record whose resolved id is already present changes nothing: first write wins. */
  lemma AddDuplicateIsNoOp(list: seq<NotificationWithId>, notification: Notification, generatedId: string)
    requires HasId(list, ResolveId(notification, generatedId).id.value)
    ensures Added(list, notification, generatedId) == list
  {
  }

  /** A record with a new id is appended last; everything before it stays where it was. */
  lemma AddNewAppendsAtTail(list: seq<NotificationWithId>, notification: Notification, generatedId: string)
    requires !HasId(list, ResolveId(notification, generatedId).id.value)
    ensures var r := Added(list, notification, generatedId);
      |r| == |list| + 1 && r[..|list|] == list && r[|list|] == ResolveId(notification, generatedId)
  {
  }

  /** After `addNotification` exactly one record carries the resolved id (the guarantee of admission). */
  lemma AddLeavesOneRecordWithId(list: seq<NotificationWithId>, notification: Notification, generatedId: string)
    requires UniqueIds(list)
    ensures var id := ResolveId(notification, generatedId).id;
      var r := Added(list, notification, generatedId);
      HasId(r, id.value) && UniqueIds(r) &&
      forall i, j :: 0 <= i < |r| && 0 <= j < |r| && r[i].id == id && r[j].id == id ==> i == j
  {
    AddKeepsUniqueIds(list, notification, generatedId);
    var withId := ResolveId(notification, generatedId);
    var r := Added(list, notification, generatedId);
    if !HasId(list, withId.id.value) {
      assert r[|list|] == withId;
    }
  }

  /** `addNotification` keeps the ids distinct. */
  lemma AddKeepsUniqueIds(list: seq<NotificationWithId>, notification: Notification, generatedId: string)
    ensures UniqueIds(list) ==> UniqueIds(Added(list, notification, generatedId))
  {
  }

  /** Two requests without an id and with distinct fresh generated ids give two new records. */
  lemma TwoAnonymousAddsGiveTwoRecords(list: seq<NotificationWithId>, first: Notification, second: Notification, id1: string, id2: string)
    requires first.id == None && second.id == None
    requires id1 != id2 && !HasId(list, id1) && !HasId(list, id2)
    ensures var r := Added(Added(list, first, id1), second, id2);
      |r| == |list| + 2 && r[|list|].id == Some(id1) && r[|list| + 1].id == Some(id2)
  {
  }

  /** The run of `addNotification` actions for `requests`, each with its generated id. */
  function AddSteps(requests: seq<Notification>, generatedIds: seq<string>): (steps: seq<(Action, string)>)
    requires |generatedIds| == |requests|
  {
    seq(|requests|, k requires 0 <= k < |requests| => (AddNotification(requests[k]), generatedIds[k]))
  }

  /** The records `requests` resolve to, in request order. */
  function ResolvedAll(requests: seq<Notification>, generatedIds: seq<string>): (r: seq<NotificationWithId>)
    requires |generatedIds| == |requests|
  {
    seq(|requests|, k requires 0 <= k < |requests| => ResolveId(requests[k], generatedIds[k]))
  }

  /**
   * A run of adds whose resolved ids are new and pairwise distinct appends
   * exactly the resolved records, in the order they were added.
   */
  lemma {:induction false} AddsWithDistinctIdsAppendInOrder(s: State, requests: seq<Notification>, generatedIds: seq<string>)
    requires |generatedIds| == |requests|
    requires UniqueIds(s.notifications + ResolvedAll(requests, generatedIds))
    ensures ReduceAll(s, AddSteps(requests, generatedIds)) == s.(notifications := s.notifications + ResolvedAll(requests, generatedIds))
    decreases |requests|
  {
    var steps := AddSteps(requests, generatedIds);
    var all := s.notifications + ResolvedAll(requests, generatedIds);
    if requests == [] {
      assert steps == [];
      assert all == s.notifications;
    } else {
      var head := ResolveId(requests[0], generatedIds[0]);
      var n := |s.notifications|;
      assert all[n] == head;
      assert !HasId(s.notifications, head.id.value) by {
        forall k | 0 <= k < n ensures s.notifications[k].id != head.id {
          assert all[k] == s.notifications[k];
        }
      }
      var s1 := Reduce(s, AddNotification(requests[0]), generatedIds[0]);
      assert s1 == s.(notifications := s.notifications + [head]);
      assert steps[1..] == AddSteps(requests[1..], generatedIds[1..]);
      assert ResolvedAll(requests, generatedIds) == [head] + ResolvedAll(requests[1..], generatedIds[1..]);
      assert all == s1.notifications + ResolvedAll(requests[1..], generatedIds[1..]);
      AddsWithDistinctIdsAppendInOrder(s1, requests[1..], generatedIds[1..]);
    }
  }

  /**
   * From the initial state, adds with pairwise distinct resolved ids leave one
   * record per request, in insertion order.
   */
  lemma DistinctAddsFromInitialState(requests: seq<Notification>, generatedIds: seq<string>)
    requires |generatedIds| == |requests|
    requires UniqueIds(ResolvedAll(requests, generatedIds))
    ensures var s := ReduceAll(InitialState, AddSteps(requests, generatedIds));
      |s.notifications| == |requests| &&
      forall k :: 0 <= k < |requests| ==> s.notifications[k] == ResolveId(requests[k], generatedIds[k])
  {
    assert InitialState.notifications + ResolvedAll(requests, generatedIds) == ResolvedAll(requests, generatedIds);
    AddsWithDistinctIdsAppendInOrder(InitialState, requests, generatedIds);
  }

  /** Adding `x` with message "one", then `x` with message "two", keeps only the first. */
  lemma FirstWriteWinsScenario(one: Notification, two: Notification, generatedId: string)
    requires one.id == Some("x") && one.message == "one"
    requires two.id == Some("x") && two.message == "two"
    ensures var s := ReduceAll(InitialState, [(AddNotification(one), generatedId), (AddNotification(two), generatedId)]);
      |s.notifications| == 1 && s.notifications[0].id == Some("x") && s.notifications[0].message == "one"
  {
    var steps := [(AddNotification(one), generatedId), (AddNotification(two), generatedId)];
    var s1 := Reduce(InitialState, AddNotification(one), generatedId);
    assert s1.notifications == [ResolveId(one, generatedId)];
    assert HasId(s1.notifications, "x") by { assert s1.notifications[0].id == Some("x"); }
    var s2 := Reduce(s1, AddNotification(two), generatedId);
    assert s2 == s1;
    assert steps[1..][1..] == [];
    assert ReduceAll(InitialState, steps) == ReduceAll(s1, steps[1..]) == ReduceAll(s2, []);
  }

  /** Adding `a`, adding `b`, then removing `a` leaves `b` alone. */
  lemma AddAddRemoveScenario(a: Notification, b: Notification, generatedId: string)
    requires a.id == Some("a") && b.id == Some("b")
    ensures ReduceAll(InitialState, [(AddNotification(a), generatedId), (AddNotification(b), generatedId),
                                     (RemoveNotification("a"), generatedId)]).notifications == [b]
  {
    var step1, step2, step3 := (AddNotification(a), generatedId), (AddNotification(b), generatedId), (RemoveNotification("a"), generatedId);
    AddAddRemoveLists(a, b, generatedId);
    var s1 := Reduce(InitialState, step1.0, step1.1);
    var s2 := Reduce(s1, step2.0, step2.1);
    var s3 := Reduce(s2, step3.0, step3.1);
    assert s3.notifications == [b];
    assert ReduceAll(s2, [step3]) == s3 by { assert [step3][1..] == []; }
    assert ReduceAll(s1, [step2, step3]) == s3 by { assert [step2, step3][1..] == [step3]; }
    assert ReduceAll(InitialState, [step1, step2, step3]) == s3 by { assert [step1, step2, step3][1..] == [step2, step3]; }
  }

  /** The lists behind the add-add-remove scenario. */
  lemma AddAddRemoveLists(a: Notification, b: Notification, generatedId: string)
    requires a.id == Some("a") && b.id == Some("b")
    ensures Added([], a, generatedId) == [a]
    ensures Added([a], b, generatedId) == [a, b]
    ensures Filter([a, b], "a") == [b]
  {
    assert ResolveId(a, generatedId) == a && ResolveId(b, generatedId) == b;
    assert !HasId([a], "b");
    assert [a, b][1..] == [b] && [b][1..] == [];
    RemoveAbsentIsNoOp([b], "a");
  }

  // ---------------------------------------------------------------------------
  // Properties of removeNotification
  // ---------------------------------------------------------------------------

  /** Removing an id that no record carries is a no-op. */
  lemma {:induction false} RemoveAbsentIsNoOp(list: seq<NotificationWithId>, id: string)
    requires !HasId(list, id)
    ensures Filter(list, id) == list
  {
    if list != [] {
      assert list[0].id != Some(id);
      assert !HasId(list[1..], id) by {
        forall k | 0 <= k < |list[1..]| ensures list[1..][k].id != Some(id) {
          assert list[1..][k] == list[k + 1];
        }
      }
      RemoveAbsentIsNoOp(list[1..], id);
    }
  }

  /** After removal no record carries the id, so removing twice is removing once. */
  lemma RemoveIsIdempotent(list: seq<NotificationWithId>, id: string)
    ensures !HasId(Filter(list, id), id)
    ensures Filter(Filter(list, id), id) == Filter(list, id)
  {
    var r := Filter(list, id);
    assert !HasId(r, id) by {
      forall k | 0 <= k < |r| ensures r[k].id != Some(id) {
        assert r[k] in r;
      }
    }
    RemoveAbsentIsNoOp(r, id);
  }

  /** `removeNotification` keeps the ids distinct. */
  lemma {:induction false} RemoveKeepsUniqueIds(list: seq<NotificationWithId>, id: string)
    ensures UniqueIds(list) ==> UniqueIds(Filter(list, id))
  {
    if UniqueIds(list) && list != [] {
      UniqueIdsTail(list);
      RemoveKeepsUniqueIds(list[1..], id);
      var rest := Filter(list[1..], id);
      if list[0].id != Some(id) {
        forall n | n in rest ensures n.id != list[0].id {
          assert n in list[1..];
        }
        ConsKeepsUniqueIds(list[0], rest);
      }
    }
  }

  /** Putting a record whose id no record of `rest` carries in front of `rest` keeps the ids distinct. */
  lemma ConsKeepsUniqueIds(x: NotificationWithId, rest: seq<NotificationWithId>)
    requires UniqueIds(rest)
    requires forall n :: n in rest ==> n.id != x.id
    ensures UniqueIds([x] + rest)
  {
    var r := [x] + rest;
    forall i, j | 0 <= i < j < |r| ensures r[i].id != r[j].id {
      assert r[j] == rest[j - 1];
      if i > 0 {
        assert r[i] == rest[i - 1];
      }
    }
  }

  /** In a list of distinct ids, removing a present id drops exactly one record. */
  lemma {:induction false} RemovePresentDropsOne(list: seq<NotificationWithId>, id: string)
    requires UniqueIds(list)
    requires HasId(list, id)
    ensures |Filter(list, id)| == |list| - 1
  {
    UniqueIdsTail(list);
    if list[0].id == Some(id) {
      assert !HasId(list[1..], id) by {
        forall k | 0 <= k < |list[1..]| ensures list[1..][k].id != Some(id) {
          assert list[1..][k] in list[1..];
        }
      }
      RemoveAbsentIsNoOp(list[1..], id);
    } else {
      var k :| 0 <= k < |list| && list[k].id == Some(id);
      assert list[1..][k - 1] == list[k];
      RemovePresentDropsOne(list[1..], id);
    }
  }

  // ---------------------------------------------------------------------------
  // The store's invariant over every run of the reducer
  // ---------------------------------------------------------------------------

  /** From any state with distinct ids, every run of the reducer keeps the ids distinct. */
  lemma {:induction false} ReduceAllKeepsUniqueIds(s: State, steps: seq<(Action, string)>)
    requires UniqueIds(s.notifications)
    ensures UniqueIds(ReduceAll(s, steps).notifications)
    decreases |steps|
  {
    if steps != [] {
      ReduceAllKeepsUniqueIds(Reduce(s, steps[0].0, steps[0].1), steps[1..]);
    }
  }

  /** Every state reached from the initial state holds records with distinct ids. */
  lemma ReachableStatesHaveUniqueIds(steps: seq<(Action, string)>)
    ensures UniqueIds(ReduceAll(InitialState, steps).notifications)
  {
    ReduceAllKeepsUniqueIds(InitialState, steps);
  }

  /** A run that ends with a budget close ends in the initial state, whatever came before. */
  lemma {:induction false} RunEndingInCloseIsInitial(s: State, steps: seq<(Action, string)>, close: Action, generatedId: string)
    requires close.CloseBudgetFulfilled? || close.CloseBudgetUIFulfilled?
    ensures ReduceAll(s, steps + [(close, generatedId)]) == InitialState
    decreases |steps|
  {
    if steps == [] {
      assert [(close, generatedId)][1..] == [];
    } else {
      assert (steps + [(close, generatedId)])[1..] == steps[1..] + [(close, generatedId)];
      RunEndingInCloseIsInitial(Reduce(s, steps[0].0, steps[0].1), steps[1..], close, generatedId);
    }
  }

  // ---------------------------------------------------------------------------
  // addGenericErrorNotification: as written versus as its name intends
  // ---------------------------------------------------------------------------

  /** As written, a reported internal fault never reaches the list. */
  lemma GenericErrorIsDiscarded(s: State, generatedId: string)
    ensures Reduce(s, AddGenericErrorNotification, generatedId).notifications == s.notifications
    ensures Reduce(InitialState, AddGenericErrorNotification, generatedId).notifications == []
  {
  }

  /**
   * As the reducer's name intends (the action dispatched through
   * `addNotification`), a fault with a fresh generated id is shown last, as
   * an error carrying the message.
   */
  lemma DispatchedGenericErrorIsShown(list: seq<NotificationWithId>, message: string, generatedId: string)
    requires !HasId(list, generatedId)
    ensures var r := Added(list, GenericError(message), generatedId);
      |r| == |list| + 1 && r[..|list|] == list &&
      r[|list|].id == Some(generatedId) && r[|list|].kind == Some(Error) && r[|list|].message == message
  {
  }

  // ---------------------------------------------------------------------------
  // The store itself
  // ---------------------------------------------------------------------------

  class NotificationStore {
    var notifications: seq<NotificationWithId>
    var inset: Inset

    /** The store's invariant: no two records share an id. */
    ghost predicate Valid()
      reads this
    {
      UniqueIds(notifications)
    }

    function Snapshot(): (s: State)
      reads this
    {
      State(notifications, inset)
    }

    /** The store in its initial state. */
    constructor ()
      ensures Valid()
      ensures Snapshot() == InitialState
    {
      notifications := [];
      inset := EmptyInset;
    }

    /** Case reducer `addNotification`. */
    method AddNotification(notification: Notification, generatedId: string)
      modifies this
      ensures notifications == Added(old(notifications), notification, generatedId)
      ensures inset == old(inset)
      ensures old(Valid()) ==> Valid()
    {
      var withId := ResolveId(notification, generatedId);
      if Find(notifications, withId.id.value).Some? {
        return;
      }
      AddKeepsUniqueIds(notifications, notification, generatedId);
      notifications := notifications + [withId];
    }

    /**
     * Case reducer `addGenericErrorNotification` as written: it calls the
     * action creator, drops the action, and leaves the state as it was.
     */
    method AddGenericErrorNotification(message: string)
      ensures notifications == old(notifications) && inset == old(inset)
    {
      var _ := AddNotificationCreator(GenericError(message));
    }

    /**
     * `addGenericErrorNotification` as its name intends: the generic error goes
     * through `addNotification` with a generated id.
     */
    method AddGenericErrorNotificationDispatched(message: string, generatedId: string)
      modifies this
      ensures notifications == Added(old(notifications), GenericError(message), generatedId)
      ensures inset == old(inset)
      ensures old(Valid()) ==> Valid()
    {
      AddNotification(GenericError(message), generatedId);
    }

    /** Case reducer `removeNotification`. */
    method RemoveNotification(id: string)
      modifies this
      ensures notifications == Filter(old(notifications), id)
      ensures inset == old(inset)
      ensures old(Valid()) ==> Valid()
    {
      RemoveKeepsUniqueIds(notifications, id);
      notifications := Filter(notifications, id);
    }

    /** Case reducer `setNotificationInset`: a full replace, never a merge. */
    method SetNotificationInset(payload: InsetPayload)
      modifies this
      ensures inset == InsetFor(payload)
      ensures notifications == old(notifications)
    {
      inset := InsetFor(payload);
    }

    /** The extra reducer for a fulfilled `closeBudget` or `closeBudgetUI`. */
    method Reset()
      modifies this
      ensures Valid()
      ensures Snapshot() == InitialState
    {
      var initial := InitialState;
      notifications := initial.notifications;
      inset := initial.inset;
    }

    /** The whole reducer applied to the store: dispatching `action` steps it as `Reduce` does. */
    method Dispatch(action: Action, generatedId: string)
      modifies this
      ensures Snapshot() == Reduce(old(Snapshot()), action, generatedId)
      ensures old(Valid()) ==> Valid()
    {
      match action
      case AddNotification(notification) => AddNotification(notification, generatedId);
      case AddGenericErrorNotification => AddGenericErrorNotification(GenericErrorText);
      case RemoveNotification(id) => RemoveNotification(id);
      case SetNotificationInset(payload) => SetNotificationInset(payload);
      case CloseBudgetFulfilled => Reset();
      case CloseBudgetUIFulfilled => Reset();
      case Unrelated =>
    }
  }
}
