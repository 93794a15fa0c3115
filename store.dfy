/** The web front end's Vuex store (web/src/store/index.js): the user list
    and two busy flags, the four mutations that change them, and the two
    actions that commit mutations around a request to the back end. The
    request's outcome is a parameter; the request itself is not modelled. */
module WebStore {
  import opened Base

  /** A user as the front end holds it: the id it matches on, the pass text
      and the check-in flag it sends back (the API carries the pass as a
      string), and the remaining fields as text. */
  datatype WebUser = WebUser(id: int, covidPass: string, checkin: bool, fields: map<string, string>)

  /** The store's state. */
  datatype StoreState = StoreState(users: seq<WebUser>, isSearching: bool, isUpdating: bool)

  const Initial := StoreState([], false, false)

  /** A committed mutation with its payload. A falsy `setUsers` payload
      (undefined or null) is `None`. */
  datatype Commit =
    | SetUsers(payload: Option<seq<WebUser>>)
    | SetIsSearching(searching: bool)
    | SetIsUpdating(updating: bool)
    | UpdateUser(user: WebUser)

  /** `users.map(u => u.id === user.id ? user : u)`. */
  function ReplaceById(us: seq<WebUser>, user: WebUser): (r: seq<WebUser>)
    ensures |r| == |us|
    ensures forall k :: 0 <= k < |us| ==> r[k] == if us[k].id == user.id then user else us[k]
    ensures (forall k :: 0 <= k < |us| ==> us[k].id != user.id) ==> r == us
  {
    if us == [] then []
    else [if us[0].id == user.id then user else us[0]] + ReplaceById(us[1..], user)
  }

  /** Replacing twice by the same user is replacing once. */
  lemma ReplaceByIdIdempotent(us: seq<WebUser>, user: WebUser)
    ensures ReplaceById(ReplaceById(us, user), user) == ReplaceById(us, user)
  {
    var once := ReplaceById(us, user);
    assert forall k :: 0 <= k < |once| ==> ReplaceById(once, user)[k] == once[k];
  }

  /** Afterwards the only elements with the user's id are the user. */
  lemma ReplaceByIdMatches(us: seq<WebUser>, user: WebUser)
    ensures forall k :: 0 <= k < |us| ==>
      (ReplaceById(us, user)[k].id == user.id <==> ReplaceById(us, user)[k] == user)
  {
  }

  /** What one mutation does to the state. */
  function Mutate(st: StoreState, c: Commit): StoreState
  {
    match c
    case SetUsers(p) => st.(users := if p.Some? then p.value else [])
    case SetIsSearching(b) => st.(isSearching := b)
    case SetIsUpdating(b) => st.(isUpdating := b)
    case UpdateUser(u) => st.(users := ReplaceById(st.users, u))
  }

  /** The mutations of a commit sequence, applied in order. */
  function MutateAll(st: StoreState, cs: seq<Commit>): StoreState
  {
    if cs == [] then st else Mutate(MutateAll(st, cs[..|cs| - 1]), cs[|cs| - 1])
  }

  /** One more commit is one more mutation. */
  lemma MutateAllSnoc(st: StoreState, cs: seq<Commit>, c: Commit)
    ensures MutateAll(st, cs + [c]) == Mutate(MutateAll(st, cs), c)
  {
    assert (cs + [c])[..|cs|] == cs;
  }

  /** Each flag mutation touches its own flag only, and the list mutations
      touch the list only. */
  lemma MutationsKeepTheRest(st: StoreState, c: Commit)
    ensures c.SetIsSearching? ==> Mutate(st, c) == st.(isSearching := c.searching)
    ensures c.SetIsUpdating? ==> Mutate(st, c) == st.(isUpdating := c.updating)
    ensures (c.SetUsers? || c.UpdateUser?) ==>
      Mutate(st, c).isSearching == st.isSearching && Mutate(st, c).isUpdating == st.isUpdating
  {
  }

  /** How a search request ends: a response (`res`, itself possibly
      falsy) whose body's `data` may be missing, or a rejection
      (including a cancellation). */
  datatype SearchReply = Resolved(res: Option<Option<seq<WebUser>>>) | Rejected

  /** The commits `searchUsers` makes. */
  function SearchCommits(reply: SearchReply): seq<Commit>
  {
    match reply
    case Resolved(Some(data)) => [SetIsSearching(true), SetUsers(data), SetIsSearching(false)]
    case _ => [SetIsSearching(true)]
  }

  /** The commits `updateUserById` makes: the busy flag is raised, the
      list updated only once the request succeeded, and the flag lowered
      in the `finally` block either way. */
  function UpdateCommits(user: WebUser, succeeded: bool): seq<Commit>
  {
    [SetIsUpdating(true)] + (if succeeded then [UpdateUser(user)] else []) + [SetIsUpdating(false)]
  }

  /** The body `updateUserById` sends: the id, the pass text and the
      check-in flag. */
  datatype UpdateBody = UpdateBody(id: int, covidPass: string, checkin: bool)

  /** `searchUsers` leaves the flag down and the list replaced only after a
      response; after a rejection the flag stays up and the list as it
      was. */
  lemma SearchOutcome(st: StoreState, reply: SearchReply)
    ensures var after := MutateAll(st, SearchCommits(reply));
      after.isUpdating == st.isUpdating
      && (after.isSearching <==> !(reply.Resolved? && reply.res.Some?))
      && (reply.Resolved? && reply.res.Some? ==>
            after.users == if reply.res.value.Some? then reply.res.value.value else [])
      && (!(reply.Resolved? && reply.res.Some?) ==> after.users == st.users)
  {
    var raise := SetIsSearching(true);
    MutateAllSnoc(st, [], raise);
    assert [] + [raise] == [raise];
    if reply.Resolved? && reply.res.Some? {
      var fill := SetUsers(reply.res.value);
      MutateAllSnoc(st, [raise], fill);
      MutateAllSnoc(st, [raise, fill], SetIsSearching(false));
      assert [raise] + [fill] == [raise, fill];
      assert [raise, fill] + [SetIsSearching(false)] == SearchCommits(reply);
    }
  }

  /** `updateUserById` always ends with the flag down, and changes the
      list (by id) only when the request succeeded. */
  lemma UpdateOutcome(st: StoreState, user: WebUser, succeeded: bool)
    ensures var after := MutateAll(st, UpdateCommits(user, succeeded));
      !after.isUpdating
      && after.isSearching == st.isSearching
      && after.users == if succeeded then ReplaceById(st.users, user) else st.users
  {
    var raise, lower := SetIsUpdating(true), SetIsUpdating(false);
    MutateAllSnoc(st, [], raise);
    assert [] + [raise] == [raise];
    if succeeded {
      MutateAllSnoc(st, [raise], UpdateUser(user));
      MutateAllSnoc(st, [raise, UpdateUser(user)], lower);
      assert [raise] + [UpdateUser(user)] == [raise, UpdateUser(user)];
      assert [raise, UpdateUser(user)] + [lower] == UpdateCommits(user, succeeded);
    } else {
      MutateAllSnoc(st, [raise], lower);
      assert [raise] + [lower] == UpdateCommits(user, succeeded);
    }
  }

  class Store {
    var users: seq<WebUser>
    var isSearching: bool
    var isUpdating: bool

    function State(): StoreState
      reads this
    {
      StoreState(users, isSearching, isUpdating)
    }

    constructor ()
      ensures State() == Initial
    {
      users := [];
      isSearching := false;
      isUpdating := false;
    }

    /** `setUsers`: a copy of the payload, or the empty list for a falsy
        one. */
    method SetUsersMutation(payload: Option<seq<WebUser>>)
      modifies this
      ensures State() == Mutate(old(State()), SetUsers(payload))
    {
      users := if payload.Some? then payload.value else [];
    }

    method SetIsSearchingMutation(b: bool)
      modifies this
      ensures State() == Mutate(old(State()), SetIsSearching(b))
    {
      isSearching := b;
    }

    method SetIsUpdatingMutation(b: bool)
      modifies this
      ensures State() == Mutate(old(State()), SetIsUpdating(b))
    {
      isUpdating := b;
    }

    /** `updateUser`: every element with the user's id becomes the user. */
    method UpdateUserMutation(user: WebUser)
      modifies this
      ensures State() == Mutate(old(State()), UpdateUser(user))
    {
      users := ReplaceById(users, user);
    }

    /** Performs one commit. */
    method Apply(c: Commit)
      modifies this
      ensures State() == Mutate(old(State()), c)
    {
      match c
      case SetUsers(p) => SetUsersMutation(p);
      case SetIsSearching(b) => SetIsSearchingMutation(b);
      case SetIsUpdating(b) => SetIsUpdatingMutation(b);
      case UpdateUser(u) => UpdateUserMutation(u);
    }

    /** `commit`: one more mutation after the commits `done` made from
        `start`. */
    method CommitNext(c: Commit, ghost start: StoreState, ghost done: seq<Commit>)
      requires State() == MutateAll(start, done)
      modifies this
      ensures State() == MutateAll(start, done + [c])
    {
      Apply(c);
      MutateAllSnoc(start, done, c);
    }

    /** The `searchUsers` action, given how its request ends. */
    method SearchUsers(surname: string, reply: SearchReply) returns (committed: seq<Commit>)
      modifies this
      ensures committed == SearchCommits(reply)
      ensures State() == MutateAll(old(State()), committed)
    {
      ghost var start := State();
      committed := [];
      CommitNext(SetIsSearching(true), start, committed);
      committed := committed + [SetIsSearching(true)];
      if reply.Resolved? && reply.res.Some? {
        CommitNext(SetUsers(reply.res.value), start, committed);
        committed := committed + [SetUsers(reply.res.value)];
        CommitNext(SetIsSearching(false), start, committed);
        committed := committed + [SetIsSearching(false)];
      }
    }

    /** The `updateUserById` action, given whether its PUT succeeded;
        returns the body it sends and `true` on success. */
    method UpdateUserById(user: WebUser, succeeded: bool) returns (sent: UpdateBody, ok: bool, committed: seq<Commit>)
      modifies this
      ensures sent == UpdateBody(user.id, user.covidPass, user.checkin)
      ensures ok == succeeded
      ensures committed == UpdateCommits(user, succeeded)
      ensures State() == MutateAll(old(State()), committed)
    {
      ghost var start := State();
      committed := [];
      CommitNext(SetIsUpdating(true), start, committed);
      committed := committed + [SetIsUpdating(true)];
      sent := UpdateBody(user.id, user.covidPass, user.checkin);
      ok := false;
      if succeeded {
        CommitNext(UpdateUser(user), start, committed);
        committed := committed + [UpdateUser(user)];
        ok := true;
      }
      CommitNext(SetIsUpdating(false), start, committed);
      committed := committed + [SetIsUpdating(false)];
    }
  }
}
