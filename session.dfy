/** The session registry and control-plane handlers of `ScreenShareServer`
    in unified_server.py.

    Each handler is one atomic step here. `_stop_presenting` and
    `_user_disconnected` await the capture task, and other handlers can run
    meanwhile; the disconnect's two halves around that await are modelled
    separately as well. A user's websocket is identified with the user's
    id, and a network send becomes an append to `outbox`, the sequence of
    messages actually delivered. Which sends raise is not decided by the
    server: each handler that sends is given the set `failed` of users
    whose socket raises during that step. */
module Session {
  import opened Wrappers
  import PyText
  import UnifiedCapture

  /** A user id: the text of a `uuid4`, never empty. So `presenter_id` is
      falsy exactly when it is `None`, and the handlers' truthiness tests on
      it are `None?` tests here. */
  type UserId = s: string | |s| > 0 witness "0"

  /** A connected user. `isPresenter` is the per-user flag the handlers
      update in place. */
  datatype User = User(id: UserId, name: string, connectedAt: real, isPresenter: bool)

  /** The JSON projection of a user: the dict `User.to_dict()` builds,
      which carries the fields of `User` but not its websocket. Messages
      hold these, never the users themselves. */
  datatype UserView = UserView(id: UserId, name: string, connectedAt: real, isPresenter: bool)

  /** The messages the server sends over a websocket, by their `type`. */
  datatype Message =
    | Welcome(userId: UserId, roomId: string, isPresenter: bool, users: seq<UserView>)
    | UserJoined(user: UserView, totalUsers: nat)
    | UserLeft(user: UserView, totalUsers: nat, newPresenter: Option<UserView>)
    | PresenterChanged(granted: UserView, users: seq<UserView>)
    | PresentationStarted(presenter: UserView)
    | PresentationStopped(presenter: UserView)
    | ChatMessage(user: UserView, message: string, timestamp: real)
    | SettingsUpdated(settings: UnifiedCapture.SettingsPayload)
    | Error(message: string)

  /** One delivered message. */
  datatype Envelope = Envelope(to: UserId, msg: Message)

  /** A decoded incoming message: its `type`, `message` and `settings` keys,
      each possibly absent. */
  datatype Incoming = Incoming(
    kind: Option<string>, message: Option<string>, settings: Option<UnifiedCapture.SettingsPayload>)

  const OnlyPresenterCanShare := "Only the presenter can share screen"

  /** The users in insertion order (the order of the `users` dict) and the
      presenter id. */
  datatype Registry = Registry(users: seq<User>, presenterId: Option<UserId>)

  // ---------------------------------------------------------------------
  // Users, their ids and their dicts

  function ToDict(u: User): UserView {
    UserView(u.id, u.name, u.connectedAt, u.isPresenter)
  }

  /** `[u.to_dict() for u in self.users.values()]`. */
  function Views(users: seq<User>): seq<UserView> {
    seq(|users|, i requires 0 <= i < |users| => ToDict(users[i]))
  }

  /** `User(user_id, ws).name` when no name is given: "User " followed by the
      first eight characters of the id (fewer when the id is shorter). */
  function DefaultName(id: UserId): (name: string)
    ensures |name| == 5 + (if |id| < 8 then |id| else 8)
    ensures name[..5] == "User "
    ensures name[5..] == id[..|name| - 5]
  {
    "User " + id[..if |id| < 8 then |id| else 8]
  }

  /** A freshly connected user: default name, not presenter. */
  function NewUser(id: UserId, now: real): User {
    User(id, DefaultName(id), now, false)
  }

  /** The keys of the `users` dict, in order. */
  function Ids(users: seq<User>): (ids: seq<UserId>)
    ensures |ids| == |users|
    ensures forall i :: 0 <= i < |users| ==> ids[i] == users[i].id
  {
    seq(|users|, i requires 0 <= i < |users| => users[i].id)
  }

  predicate Distinct(users: seq<User>) {
    forall i, j :: 0 <= i < j < |users| ==> users[i].id != users[j].id
  }

  function FindFrom(users: seq<User>, id: UserId, from: nat): (k: Option<nat>)
    requires from <= |users|
    ensures k.Some? ==> from <= k.value < |users| && users[k.value].id == id
    ensures k.None? ==> forall j :: from <= j < |users| ==> users[j].id != id
    decreases |users| - from
  {
    if from == |users| then None
    else if users[from].id == id then Some(from)
    else FindFrom(users, id, from + 1)
  }

  /** The position of key `id` in the dict, if it is a key. */
  function Find(users: seq<User>, id: UserId): (k: Option<nat>)
    ensures k.Some? <==> id in Ids(users)
    ensures k.Some? ==> k.value < |users| && users[k.value].id == id
  {
    FindFrom(users, id, 0)
  }

  /** `self.users[id]`. */
  function UserOf(users: seq<User>, id: UserId): (u: User)
    requires id in Ids(users)
    ensures u in users && u.id == id
  {
    users[Find(users, id).value]
  }

  /** `self.users[id].is_presenter = b` on the user with key `id`, if any. */
  function WithFlag(users: seq<User>, id: UserId, b: bool): (r: seq<User>)
    ensures |r| == |users|
    ensures forall i :: 0 <= i < |users| ==>
      r[i] == if users[i].id == id then users[i].(isPresenter := b) else users[i]
  {
    seq(|users|, i requires 0 <= i < |users| =>
      if users[i].id == id then users[i].(isPresenter := b) else users[i])
  }

  // ---------------------------------------------------------------------
  // The registry and its invariant

  /** The presenter invariant: ids are unique, the presenter is connected,
      the per-user flag holds exactly for the presenter, and somebody
      presents whenever anybody is connected. */
  ghost predicate Inv(r: Registry) {
    && Distinct(r.users)
    && (r.presenterId.Some? ==> r.presenterId.value in Ids(r.users))
    && (forall i :: 0 <= i < |r.users| ==>
          (r.users[i].isPresenter <==> r.presenterId == Some(r.users[i].id)))
    && (|r.users| > 0 ==> r.presenterId.Some?)
  }

  /** Under the invariant exactly one connected user carries the presenter
      flag when anybody is connected, and nobody does otherwise. */
  lemma ExactlyOnePresenter(r: Registry)
    requires Inv(r)
    ensures forall i, j :: (0 <= i < |r.users| && 0 <= j < |r.users|
              && r.users[i].isPresenter && r.users[j].isPresenter) ==> i == j
    ensures |r.users| > 0 <==> exists i :: 0 <= i < |r.users| && r.users[i].isPresenter
  {
    if |r.users| > 0 {
      var k := Find(r.users, r.presenterId.value).value;
      assert r.users[k].isPresenter;
    }
  }

  /** The registry after `websocket_handler` admits user `id` (lines
      332-339): appended last, and presenter exactly when there was none. */
  function JoinState(r: Registry, id: UserId, now: real): Registry {
    var first := r.presenterId.None?;
    Registry(r.users + [NewUser(id, now).(isPresenter := first)],
             if first then Some(id) else r.presenterId)
  }

  /** The registry after `_request_presenter(id)`: an unknown id changes
      nothing; otherwise the old holder's flag is cleared, the requester's
      set, and the requester becomes presenter. */
  function RequestPresenterState(r: Registry, id: UserId): Registry {
    if id !in Ids(r.users) then r
    else
      var cleared := if r.presenterId.Some? then WithFlag(r.users, r.presenterId.value, false)
                     else r.users;
      Registry(WithFlag(cleared, id, true), Some(id))
  }

  /** The registry after `_user_disconnected(id)`: an unknown id changes
      nothing; otherwise the user is removed and, if it presented, the role
      goes to the first remaining user in insertion order, or to nobody. */
  function DisconnectState(r: Registry, id: UserId): Registry {
    match Find(r.users, id)
    case None => r
    case Some(k) =>
      var rest := r.users[..k] + r.users[k + 1..];
      if r.presenterId != Some(id) then Registry(rest, r.presenterId)
      else if rest == [] then Registry([], None)
      else Registry(rest[0 := rest[0].(isPresenter := true)], Some(rest[0].id))
  }

  /** A join keeps the invariant. */
  lemma JoinPreservesInv(r: Registry, id: UserId, now: real)
    requires Inv(r) && id !in Ids(r.users)
    ensures Inv(JoinState(r, id, now))
  {
    var r' := JoinState(r, id, now);
    var n := |r.users|;
    assert r'.users[n].id == id;
    assert Ids(r'.users)[n] == id;
    if r.presenterId.Some? {
      var k := Find(r.users, r.presenterId.value).value;
      assert Ids(r'.users)[k] == r.presenterId.value;
    }
  }

  /** A join makes the newcomer presenter exactly when nobody presented;
      every earlier user, the earlier presenter included, is untouched. */
  lemma JoinGrantsOnlyIfVacant(r: Registry, id: UserId, now: real)
    requires Inv(r) && id !in Ids(r.users)
    ensures var r' := JoinState(r, id, now);
      && |r'.users| == |r.users| + 1
      && r'.users[..|r.users|] == r.users
      && r'.users[|r.users|].id == id
      && (r'.users[|r.users|].isPresenter <==> r.presenterId.None?)
      && (r.presenterId.Some? ==> r'.presenterId == r.presenterId)
      && Inv(r')
  {
    JoinPreservesInv(r, id, now);
    var r' := JoinState(r, id, now);
    assert r'.users[..|r.users|] == r.users;
  }

  /** `_request_presenter` from a connected user hands the role over
      unconditionally: the requester is presenter and the only flagged user,
      nobody else changes in any other way, and the invariant holds. From an
      unknown id nothing changes. */
  lemma RequestPresenterTransfers(r: Registry, id: UserId)
    requires Inv(r)
    ensures id !in Ids(r.users) ==> RequestPresenterState(r, id) == r
    ensures id in Ids(r.users) ==>
      var r' := RequestPresenterState(r, id);
      && r'.presenterId == Some(id)
      && |r'.users| == |r.users|
      && (forall i :: 0 <= i < |r.users| ==>
            r'.users[i] == r.users[i].(isPresenter := r.users[i].id == id))
      && Inv(r')
  {
    if id in Ids(r.users) {
      var r' := RequestPresenterState(r, id);
      forall i | 0 <= i < |r.users|
        ensures r'.users[i] == r.users[i].(isPresenter := r.users[i].id == id)
      {
        assert r.users[i].isPresenter <==> r.presenterId == Some(r.users[i].id);
      }
      assert Ids(r'.users) == Ids(r.users);
    }
  }

  /** Removing the entry at position `k` keeps the other entries in order,
      keeps ids unique, and drops exactly the key at `k`. */
  lemma RemoveAt(users: seq<User>, k: nat)
    requires Distinct(users) && k < |users|
    ensures var rest := users[..k] + users[k + 1..];
      && |rest| == |users| - 1
      && (forall i :: 0 <= i < |rest| ==> rest[i] == users[if i < k then i else i + 1])
      && Distinct(rest)
      && Ids(rest) == Ids(users[..k]) + Ids(users[k + 1..])
      && (forall x :: x in Ids(rest) <==> x in Ids(users) && x != users[k].id)
  {
    var rest := users[..k] + users[k + 1..];
    assert forall i :: 0 <= i < |rest| ==> rest[i] == users[if i < k then i else i + 1];
    forall x | x in Ids(users) && x != users[k].id ensures x in Ids(rest) {
      var j :| 0 <= j < |users| && Ids(users)[j] == x;
      assert Ids(rest)[if j < k then j else j - 1] == x;
    }
  }

  /** What every known-id disconnect guarantees: exactly that user leaves,
      the others keep their order, and the invariant holds. */
  ghost predicate LeavesCleanly(r: Registry, r': Registry, k: nat)
    requires k < |r.users|
  {
    && (forall x :: x in Ids(r'.users) <==> x in Ids(r.users) && x != r.users[k].id)
    && Ids(r'.users) == Ids(r.users[..k]) + Ids(r.users[k + 1..])
    && Inv(r')
  }

  /** A non-presenter leaving: the presenter and every other user stay as
      they were. */
  lemma DisconnectOther(r: Registry, id: UserId)
    requires Inv(r) && id in Ids(r.users) && r.presenterId != Some(id)
    ensures var k := Find(r.users, id).value;
      && DisconnectState(r, id) == Registry(r.users[..k] + r.users[k + 1..], r.presenterId)
      && LeavesCleanly(r, DisconnectState(r, id), k)
  {
    var k := Find(r.users, id).value;
    RemoveAt(r.users, k);
  }

  /** The last user leaving, who must be the presenter: nobody presents. */
  lemma DisconnectLast(r: Registry, id: UserId)
    requires Inv(r) && id in Ids(r.users) && r.presenterId == Some(id) && |r.users| == 1
    ensures DisconnectState(r, id) == Registry([], None)
    ensures LeavesCleanly(r, DisconnectState(r, id), Find(r.users, id).value)
  {
    RemoveAt(r.users, Find(r.users, id).value);
  }

  /** The presenter leaving while others remain: the earliest-inserted
      remaining user takes the role, and the remaining users keep their
      order, names and connection times; only the first one's flag is
      raised. */
  lemma DisconnectPresenter(r: Registry, id: UserId)
    requires Inv(r) && id in Ids(r.users) && r.presenterId == Some(id) && |r.users| > 1
    ensures var k := Find(r.users, id).value;
      && DisconnectState(r, id).presenterId == Some((if k == 0 then r.users[1] else r.users[0]).id)
      && |DisconnectState(r, id).users| == |r.users| - 1
      && (forall i :: 0 <= i < |r.users| - 1 ==>
            DisconnectState(r, id).users[i] == r.users[if i < k then i else i + 1].(isPresenter := i == 0))
      && LeavesCleanly(r, DisconnectState(r, id), k)
  {
    var k := Find(r.users, id).value;
    var rest := r.users[..k] + r.users[k + 1..];
    RemoveAt(r.users, k);
    var users' := rest[0 := rest[0].(isPresenter := true)];
    assert DisconnectState(r, id) == Registry(users', Some(rest[0].id));
    assert rest[0] == r.users[if k == 0 then 1 else 0];
    assert Ids(users') == Ids(rest);
    assert Ids(users')[0] == rest[0].id;
    forall i | 0 <= i < |r.users| - 1
      ensures users'[i] == r.users[if i < k then i else i + 1].(isPresenter := i == 0)
    {
      var j := if i < k then i else i + 1;
      assert r.users[j].id != r.users[k].id;
      assert !r.users[j].isPresenter;
    }
  }

  /** `_user_disconnected`: an unknown id is a no-op; otherwise exactly that
      user leaves and the others keep their order. A non-presenter leaving
      keeps the presenter and every flag; the presenter leaving passes the
      role to the earliest-inserted remaining user, or to nobody when none
      remain. The invariant holds afterwards. */
  lemma DisconnectReassigns(r: Registry, id: UserId)
    requires Inv(r)
    ensures id !in Ids(r.users) ==> DisconnectState(r, id) == r
    ensures id in Ids(r.users) ==>
      var r' := DisconnectState(r, id);
      var k := Find(r.users, id).value;
      && (forall x :: x in Ids(r'.users) <==> x in Ids(r.users) && x != id)
      && Ids(r'.users) == Ids(r.users[..k]) + Ids(r.users[k + 1..])
      && Inv(r')
      && (r.presenterId != Some(id) ==>
            r'.presenterId == r.presenterId && r'.users == r.users[..k] + r.users[k + 1..])
      && (r.presenterId == Some(id) && |r.users| == 1 ==> r'.presenterId == None)
      && (r.presenterId == Some(id) && |r.users| > 1 ==>
            && r'.presenterId == Some((if k == 0 then r.users[1] else r.users[0]).id)
            && |r'.users| == |r.users| - 1
            && (forall i :: 0 <= i < |r.users| - 1 ==>
                  r'.users[i] == r.users[if i < k then i else i + 1].(isPresenter := i == 0)))
  {
    if id in Ids(r.users) {
      if r.presenterId != Some(id) {
        DisconnectOther(r, id);
      } else if |r.users| == 1 {
        DisconnectLast(r, id);
      } else {
        DisconnectPresenter(r, id);
      }
    }
  }

  // ---------------------------------------------------------------------
  // The presenter hand-over as written: two steps around an await

  /** `_user_disconnected(id)` up to `await self.screen_capture.stop_capture()`
      (lines 477-486): the user is gone from the dict, but `presenter_id`
      still names it. Other handlers may run while the capture task is
      awaited. */
  function DisconnectBegin(r: Registry, id: UserId): (r': Registry)
    requires Distinct(r.users) && id in Ids(r.users)
    ensures id !in Ids(r'.users) && r'.presenterId == r.presenterId
    ensures |r'.users| == |r.users| - 1
  {
    var k := Find(r.users, id).value;
    RemoveAt(r.users, k);
    Registry(r.users[..k] + r.users[k + 1..], r.presenterId)
  }

  /** The presenter branch after the await (lines 487-493): `presenter_id`
      is cleared, then the first remaining key, if any, takes the role and
      its flag. Flags set by handlers that ran meanwhile are not cleared. */
  function DisconnectFinish(r: Registry): (r': Registry)
    ensures |r'.users| == |r.users|
    ensures r.users != [] ==> r'.presenterId == Some(r.users[0].id) && r'.users[0].isPresenter
    ensures forall i :: 0 < i < |r.users| ==> r'.users[i] == r.users[i]
  {
    if r.users == [] then Registry([], None)
    else Registry(r.users[0 := r.users[0].(isPresenter := true)], Some(r.users[0].id))
  }

  /** With nothing interleaved at the await, the two steps are the atomic
      hand-over `DisconnectState`. */
  lemma DisconnectStepsAgree(r: Registry, id: UserId)
    requires Inv(r) && r.presenterId == Some(id) && id in Ids(r.users)
    ensures DisconnectFinish(DisconnectBegin(r, id)) == DisconnectState(r, id)
  {
    var k := Find(r.users, id).value;
    assert DisconnectBegin(r, id).users == r.users[..k] + r.users[k + 1..];
  }

  /** A `_request_presenter(q)` that runs while the presenter's disconnect
      awaits `stop_capture()`: `users.get(presenter_id)` is None, so no flag
      is cleared and `q` is flagged; the resumed hand-over then flags the
      first remaining user as well. Unless `q` is that user, two users carry
      the flag and the invariant, which held before, is broken. */
  lemma DisconnectRaceBreaksInv(r: Registry, id: UserId, q: UserId)
    requires Inv(r) && r.presenterId == Some(id) && q in Ids(r.users) && q != id
    requires |r.users| >= 2 && q != DisconnectBegin(r, id).users[0].id
    ensures var r' := DisconnectFinish(RequestPresenterState(DisconnectBegin(r, id), q));
      && |r'.users| == |r.users| - 1
      && r'.users[0].isPresenter && r'.presenterId == Some(r'.users[0].id)
      && (exists j :: 0 < j < |r'.users| && r'.users[j].id == q && r'.users[j].isPresenter)
      && !Inv(r')
  {
    var k := Find(r.users, id).value;
    var mid := DisconnectBegin(r, id);
    RemoveAt(r.users, k);
    assert q in Ids(mid.users) by {
      var j := Find(r.users, q).value;
      assert Ids(mid.users)[if j < k then j else j - 1] == q;
    }
    var req := RequestPresenterState(mid, q);
    assert req.users == WithFlag(mid.users, q, true);
    var j := Find(mid.users, q).value;
    assert j > 0;
    var r' := DisconnectFinish(req);
    assert r'.users[j].id == q && r'.users[j].isPresenter;
    assert r'.presenterId != Some(r'.users[j].id);
  }

  // ---------------------------------------------------------------------
  // Delivery of one message

  /** What one fan-out of `msg` over `users` in dict order delivers: one
      envelope per user, in that order, except to the ids in `skip`. */
  function Deliveries(users: seq<User>, msg: Message, skip: set<UserId>): (d: seq<Envelope>)
    ensures |d| <= |users|
  {
    if users == [] then []
    else
      var last := users[|users| - 1];
      Deliveries(users[..|users| - 1], msg, skip)
        + (if last.id in skip then [] else [Envelope(last.id, msg)])
  }

  predicate DistinctRecipients(d: seq<Envelope>) {
    forall i, j :: 0 <= i < j < |d| ==> d[i].to != d[j].to
  }

  /** A fan-out delivers `msg` to every connected user outside `skip`, to
      nobody else, and to nobody twice. */
  lemma {:induction false} DeliveriesExact(users: seq<User>, msg: Message, skip: set<UserId>)
    requires Distinct(users)
    ensures forall e :: e in Deliveries(users, msg, skip) <==>
              e.msg == msg && e.to in Ids(users) && e.to !in skip
    ensures DistinctRecipients(Deliveries(users, msg, skip))
  {
    if users != [] {
      var init := users[..|users| - 1];
      var last := users[|users| - 1];
      DeliveriesExact(init, msg, skip);
      assert Ids(users) == Ids(init) + [last.id];
      assert last.id !in Ids(init);
      var d0 := Deliveries(init, msg, skip);
      var d := Deliveries(users, msg, skip);
      assert d == d0 + (if last.id in skip then [] else [Envelope(last.id, msg)]);
      forall i, j | 0 <= i < j < |d| ensures d[i].to != d[j].to {
        assert d[i] == d0[i] && d0[i] in d0;
        assert d0[i].to in Ids(init);
        if j < |d0| {
          assert d[j] == d0[j];
        } else {
          assert d[j].to == last.id;
        }
      }
    }
  }

  /** A send to one user (`_send_to_user`): delivered when that user is
      connected and its socket does not raise. */
  function Unicast(users: seq<User>, id: UserId, msg: Message, failed: set<UserId>): (d: seq<Envelope>)
    ensures |d| <= 1
    ensures forall e :: e in d <==> e == Envelope(id, msg) && id in Ids(users) && id !in failed
  {
    if id in Ids(users) && id !in failed then [Envelope(id, msg)] else []
  }

  /** The message kinds `_handle_message` dispatches on. */
  const KnownKinds: set<Option<string>> :=
    {Some("start_presenting"), Some("stop_presenting"), Some("request_presenter"),
     Some("chat_message"), Some("settings_update")}

  // ---------------------------------------------------------------------
  // The server

  class ScreenShareServer {
    var users: seq<User>
    var presenterId: Option<UserId>
    var outbox: seq<Envelope>
    const roomId: string
    const capture: UnifiedCapture.ScreenCapture

    function State(): Registry
      reads this
    {
      Registry(users, presenterId)
    }

    ghost predicate Valid()
      reads this
    {
      Inv(State())
    }

    /** A server with nobody connected and capture stopped; `roomId` stands
        for the truncated random uuid, `mssAvailable` and `detected` for
        what the capture library reports. */
    constructor (roomId: string, mssAvailable: bool, detected: seq<UnifiedCapture.Monitor>)
      ensures Valid() && users == [] && presenterId == None && outbox == []
      ensures this.roomId == roomId
      ensures fresh(capture) && !capture.running
    {
      users := [];
      presenterId := None;
      outbox := [];
      this.roomId := roomId;
      capture := new UnifiedCapture.ScreenCapture(mssAvailable, detected);
    }

    /** `_send_to_user`: a send error is caught and nothing else happens. */
    method SendToUser(id: UserId, msg: Message, failed: set<UserId>)
      modifies this`outbox
      ensures outbox == old(outbox) + Unicast(users, id, msg, failed)
    {
      if id in Ids(users) && id !in failed {
        outbox := outbox + [Envelope(id, msg)];
      }
    }

    /** `_broadcast`: one attempt per user over a snapshot of the keys; a
        failing socket is skipped, neither stopping the loop nor removing
        its user. */
    method Broadcast(msg: Message, failed: set<UserId>)
      modifies this`outbox
      ensures outbox == old(outbox) + Deliveries(users, msg, failed)
    {
      if users == [] {
        return;
      }
      var ids := Ids(users);
      var i := 0;
      while i < |ids|
        invariant 0 <= i <= |ids|
        invariant outbox == old(outbox) + Deliveries(users[..i], msg, failed)
      {
        assert users[..i + 1][..i] == users[..i];
        if ids[i] !in failed {
          outbox := outbox + [Envelope(ids[i], msg)];
        }
        i := i + 1;
      }
      assert users[..i] == users;
    }

    /** `_broadcast_except`: as `_broadcast`, skipping one user. */
    method BroadcastExcept(exceptId: UserId, msg: Message, failed: set<UserId>)
      modifies this`outbox
      ensures outbox == old(outbox) + Deliveries(users, msg, failed + {exceptId})
    {
      var i := 0;
      while i < |users|
        invariant 0 <= i <= |users|
        invariant outbox == old(outbox) + Deliveries(users[..i], msg, failed + {exceptId})
      {
        assert users[..i + 1][..i] == users[..i];
        if users[i].id != exceptId {
          if users[i].id !in failed {
            outbox := outbox + [Envelope(users[i].id, msg)];
          }
        }
        i := i + 1;
      }
      assert users[..i] == users;
    }

    /** The join part of `websocket_handler`: registers the new user (whose
        id, a fresh uuid, is not yet a key), sends it `welcome` and tells
        every other user `user_joined`. */
    method Join(id: UserId, now: real, failed: set<UserId>)
      requires Valid() && id !in Ids(users)
      modifies this`users, this`presenterId, this`outbox
      ensures Valid()
      ensures State() == JoinState(old(State()), id, now)
      ensures var me := users[|users| - 1];
        outbox == old(outbox)
          + Unicast(users, id, Welcome(id, roomId, me.isPresenter, Views(users)), failed)
          + Deliveries(users, UserJoined(ToDict(me), |users|), failed + {id})
    {
      ghost var before := State();
      var user := NewUser(id, now);
      users := users + [user];
      if presenterId.None? {
        presenterId := Some(id);
        user := user.(isPresenter := true);
        users := users[|users| - 1 := user];
      }
      assert State() == JoinState(before, id, now);
      JoinPreservesInv(before, id, now);
      SendToUser(id, Welcome(id, roomId, user.isPresenter, Views(users)), failed);
      BroadcastExcept(id, UserJoined(ToDict(user), |users|), failed);
    }

    /** `_start_presenting`: an unknown sender is ignored; any other
        non-presenter gets one `error` message, to itself only, and capture
        is not started; the presenter starts capture (a no-op when it is
        running) and `presentation_started` goes to everybody. */
    method StartPresenting(id: UserId, failed: set<UserId>)
      requires Valid()
      modifies this`outbox, capture
      ensures State() == old(State())
      ensures capture.Settings() == old(capture.Settings())
      ensures id !in Ids(users) ==> outbox == old(outbox) && capture.running == old(capture.running)
      ensures id in Ids(users) && presenterId != Some(id) ==>
        && outbox == old(outbox) + Unicast(users, id, Error(OnlyPresenterCanShare), failed)
        && capture.running == old(capture.running)
      ensures presenterId == Some(id) ==>
        && capture.running
        && outbox == old(outbox) + Deliveries(users, PresentationStarted(ToDict(UserOf(users, id))), failed)
    {
      if id !in Ids(users) {
        return;
      }
      if presenterId != Some(id) {
        SendToUser(id, Error(OnlyPresenterCanShare), failed);
        return;
      }
      capture.StartCapture();
      Broadcast(PresentationStarted(ToDict(UserOf(users, id))), failed);
    }

    /** `_stop_presenting`: only the presenter stops capture and announces
        `presentation_stopped`; from anybody else nothing happens and no
        error is sent. */
    method StopPresenting(id: UserId, failed: set<UserId>)
      requires Valid()
      modifies this`outbox, capture
      ensures State() == old(State())
      ensures capture.Settings() == old(capture.Settings())
      ensures presenterId != Some(id) ==>
        outbox == old(outbox) && capture.running == old(capture.running)
      ensures presenterId == Some(id) ==>
        && !capture.running
        && outbox == old(outbox) + Deliveries(users, PresentationStopped(ToDict(UserOf(users, id))), failed)
    {
      if presenterId == Some(id) {
        capture.StopCapture();
        Broadcast(PresentationStopped(ToDict(UserOf(users, id))), failed);
      }
    }

    /** `_request_presenter`: the role moves to a connected requester without
        any consent step, and everybody is told `presenter_changed`. */
    method RequestPresenter(id: UserId, failed: set<UserId>)
      requires Valid()
      modifies this`users, this`presenterId, this`outbox
      ensures Valid()
      ensures State() == RequestPresenterState(old(State()), id)
      ensures id !in Ids(users) ==> outbox == old(outbox)
      ensures id in Ids(users) ==>
        outbox == old(outbox) + Deliveries(users, PresenterChanged(ToDict(UserOf(users, id)), Views(users)), failed)
    {
      if id !in Ids(users) {
        return;
      }
      ghost var before := State();
      if presenterId.Some? {
        users := WithFlag(users, presenterId.value, false);
      }
      presenterId := Some(id);
      users := WithFlag(users, id, true);
      RequestPresenterTransfers(before, id);
      assert Ids(users) == Ids(before.users);
      Broadcast(PresenterChanged(ToDict(UserOf(users, id)), Views(users)), failed);
    }

    /** `_handle_chat`: an unknown sender or a message that is blank after
        stripping produces nothing; otherwise one `chat_message` with the
        stripped text goes to every connected user. Nothing is stored. */
    method HandleChat(id: UserId, message: string, now: real, failed: set<UserId>)
      modifies this`outbox
      ensures id !in Ids(users) || PyText.AllSpace(message) ==> outbox == old(outbox)
      ensures id in Ids(users) && !PyText.AllSpace(message) ==>
        outbox == old(outbox)
          + Deliveries(users, ChatMessage(ToDict(UserOf(users, id)), PyText.Strip(message), now), failed)
    {
      PyText.StripEmptyIffBlank(message);
      if id !in Ids(users) || PyText.Strip(message) == [] {
        return;
      }
      Broadcast(ChatMessage(ToDict(UserOf(users, id)), PyText.Strip(message), now), failed);
    }

    /** `_handle_settings_update`: from anybody but the presenter nothing
        happens and no error is sent; from the presenter the settings are
        merged and `settings_updated` carries the payload to everybody. */
    method HandleSettingsUpdate(id: UserId, settings: UnifiedCapture.SettingsPayload, failed: set<UserId>)
      modifies this`outbox, capture
      ensures capture.running == old(capture.running)
      ensures presenterId != Some(id) ==>
        outbox == old(outbox) && capture.Settings() == old(capture.Settings())
      ensures presenterId == Some(id) ==>
        && capture.Settings() == UnifiedCapture.Merge(old(capture.Settings()), |capture.monitors|, settings)
        && outbox == old(outbox) + Deliveries(users, SettingsUpdated(settings), failed)
    {
      if presenterId != Some(id) {
        return;
      }
      capture.UpdateSettings(settings);
      Broadcast(SettingsUpdated(settings), failed);
    }

    /** The state-changing half of `_user_disconnected` for a connected
        user: removal, and for a departing presenter the capture stop and
        the hand-over. */
    method RemoveUser(id: UserId) returns (user: User)
      requires Valid() && id in Ids(users)
      modifies this`users, this`presenterId, capture
      ensures Valid()
      ensures State() == DisconnectState(old(State()), id)
      ensures user == UserOf(old(users), id)
      ensures capture.Settings() == old(capture.Settings())
      ensures capture.running == if old(presenterId) == Some(id) then false else old(capture.running)
    {
      var k := Find(users, id).value;
      ghost var before := State();
      DisconnectReassigns(before, id);
      user := users[k];
      users := users[..k] + users[k + 1..];
      if presenterId == Some(id) {
        capture.StopCapture();
        presenterId := None;
        if users != [] {
          presenterId := Some(users[0].id);
          users := users[0 := users[0].(isPresenter := true)];
        }
      }
    }

    /** `_user_disconnected`: an unknown id is a no-op; otherwise the user is
        removed, a departing presenter stops capture and hands the role to
        the earliest remaining user, and `user_left` goes to those remaining. */
    method UserDisconnected(id: UserId, failed: set<UserId>)
      requires Valid()
      modifies this`users, this`presenterId, this`outbox, capture
      ensures Valid()
      ensures State() == DisconnectState(old(State()), id)
      ensures capture.Settings() == old(capture.Settings())
      ensures capture.running == if old(presenterId) == Some(id) then false else old(capture.running)
      ensures id !in old(Ids(users)) ==> outbox == old(outbox)
      ensures id in old(Ids(users)) ==>
        var newPresenter := if presenterId.Some? then Some(ToDict(UserOf(users, presenterId.value))) else None;
        outbox == old(outbox) + Deliveries(users, UserLeft(ToDict(UserOf(old(users), id)), |users|, newPresenter), failed)
    {
      if id !in Ids(users) {
        DisconnectReassigns(State(), id);
        return;
      }
      var user := RemoveUser(id);
      var newPresenter := if presenterId.Some? then Some(ToDict(UserOf(users, presenterId.value))) else None;
      Broadcast(UserLeft(ToDict(user), |users|, newPresenter), failed);
    }

    /** `_handle_message`: dispatch on the `type` key; a missing `message`
        reads as "" and missing `settings` as an empty dict. Any other type
        changes nothing and sends nothing. */
    method HandleMessage(id: UserId, data: Incoming, now: real, failed: set<UserId>)
      requires Valid()
      modifies this`users, this`presenterId, this`outbox, capture
      ensures Valid()
      ensures State() == if data.kind == Some("request_presenter")
                         then RequestPresenterState(old(State()), id) else old(State())
      ensures data.kind !in KnownKinds ==>
        outbox == old(outbox) && capture.running == old(capture.running)
        && capture.Settings() == old(capture.Settings())
    {
      if data.kind == Some("start_presenting") {
        StartPresenting(id, failed);
      } else if data.kind == Some("stop_presenting") {
        StopPresenting(id, failed);
      } else if data.kind == Some("request_presenter") {
        RequestPresenter(id, failed);
      } else if data.kind == Some("chat_message") {
        HandleChat(id, data.message.GetOr(""), now, failed);
      } else if data.kind == Some("settings_update") {
        HandleSettingsUpdate(id, data.settings.GetOr(UnifiedCapture.NoSettings), failed);
      }
    }
  }
}
