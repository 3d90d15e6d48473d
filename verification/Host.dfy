/** Who hosts a call (server/state.go:172-210). Go iterates a map in an unspecified order, so
    the answer is first stated for one iteration order and then for all of them. */
module Host {
  import opened Basics
  import opened Rows

  predicate InCall(s: Sessions, user: Id) {
    exists k :: k in s && s[k].userID == user
  }

  /** Session k belongs to a user other than the bot and no such session joined before it. */
  predicate Earliest(s: Sessions, bot: Id, k: Id) {
    k in s && s[k].userID != bot && forall j | j in s && s[j].userID != bot :: s[k].joinAt <= s[j].joinAt
  }

  ghost predicate EarliestUser(s: Sessions, bot: Id, user: Id) {
    exists k :: Earliest(s, bot, k) && s[k].userID == user
  }

  predicate OnlyBot(s: Sessions, bot: Id) {
    forall k | k in s :: s[k].userID == bot
  }

  /** The answers getHostID may give, whatever the iteration order. */
  ghost predicate HostChoice(s: Sessions, locked: Id, current: Id, bot: Id, h: Id) {
    if locked != NONE && InCall(s, locked) then h == locked
    else if InCall(s, current) then h == current
    else if OnlyBot(s, bot) then h == NONE
    else EarliestUser(s, bot, h)
  }

  lemma {:induction false} EarliestExists(s: Sessions, bot: Id)
    requires !OnlyBot(s, bot)
    ensures exists k :: Earliest(s, bot, k)
    decreases |s|
  {
    var k :| k in s && s[k].userID != bot;
    if j :| j in s && s[j].userID != bot && s[j].joinAt < s[k].joinAt {
      var rest := s - {k};
      assert j in rest && rest[j] == s[j];
      EarliestExists(rest, bot);
      var e :| Earliest(rest, bot, e);
      assert s[e].joinAt <= s[j].joinAt;
      forall z | z in s && s[z].userID != bot ensures s[e].joinAt <= s[z].joinAt {
        if z != k { assert z in rest; }
      }
      assert Earliest(s, bot, e);
    } else {
      assert Earliest(s, bot, k);
    }
  }

  /** One answer as a function: `hint` settles a tie between the earliest users. */
  ghost function PickHost(s: Sessions, locked: Id, current: Id, bot: Id, hint: Id): (h: Id)
    ensures HostChoice(s, locked, current, bot, h)
  {
    if locked != NONE && InCall(s, locked) then locked
    else if InCall(s, current) then current
    else if OnlyBot(s, bot) then NONE
    else if EarliestUser(s, bot, hint) then hint
    else
      EarliestExists(s, bot);
      var k :| Earliest(s, bot, k);
      s[k].userID
  }

  /** Every allowed answer is the function's answer for some hint, itself. */
  lemma PickCovers(s: Sessions, locked: Id, current: Id, bot: Id, h: Id)
    requires HostChoice(s, locked, current, bot, h)
    ensures PickHost(s, locked, current, bot, h) == h
  {
  }

  // ---- iteration orders ----

  /** `order` visits every session of `s` exactly once. */
  predicate Visits(order: seq<Session>, s: Sessions) {
    && (forall i | 0 <= i < |order| :: order[i].id in s && s[order[i].id] == order[i])
    && (forall k | k in s :: s[k] in order && s[k].id == k)
    && (forall i, j | 0 <= i < j < |order| :: order[i].id != order[j].id)
  }

  predicate Listed(order: seq<Session>, user: Id) {
    exists i :: 0 <= i < |order| && order[i].userID == user
  }

  /** The first visited among the sessions that joined earliest, the bot's aside. */
  predicate FirstEarliest(order: seq<Session>, bot: Id, i: nat) {
    && i < |order| && order[i].userID != bot
    && (forall j | 0 <= j < i && order[j].userID != bot :: order[i].joinAt < order[j].joinAt)
    && (forall j | i <= j < |order| && order[j].userID != bot :: order[i].joinAt <= order[j].joinAt)
  }

  /** The answer for one iteration order. */
  ghost predicate Answer(order: seq<Session>, locked: Id, current: Id, bot: Id, h: Id) {
    if locked != NONE && Listed(order, locked) then h == locked
    else if Listed(order, current) then h == current
    else if forall i | 0 <= i < |order| :: order[i].userID == bot then h == NONE
    else exists i: nat :: FirstEarliest(order, bot, i) && order[i].userID == h
  }

  method IsUserIDInCall(order: seq<Session>, user: Id) returns (found: bool)
    ensures found <==> Listed(order, user)
  {
    for i := 0 to |order|
      invariant forall j | 0 <= j < i :: order[j].userID != user
    {
      if order[i].userID == user { return true; }
    }
    return false;
  }

  method GetHostID(order: seq<Session>, locked: Id, current: Id, bot: Id) returns (h: Id)
    requires forall i | 0 <= i < |order| :: order[i].userID != NONE
    ensures Answer(order, locked, current, bot, h)
  {
    if locked != NONE {
      var present := IsUserIDInCall(order, locked);
      if present { return locked; }
    }
    h := NONE;
    var joinAt := 0;
    ghost var best := 0;
    for i := 0 to |order|
      invariant forall j | 0 <= j < i :: order[j].userID != current
      invariant h == NONE ==> forall j | 0 <= j < i :: order[j].userID == bot
      invariant h != NONE ==> best < i && FirstEarliest(order[..i], bot, best)
      invariant h != NONE ==> order[best].userID == h && order[best].joinAt == joinAt
    {
      if order[i].userID == current { return current; }
      if order[i].userID == bot { continue; }
      if h == NONE || order[i].joinAt < joinAt {
        h, joinAt, best := order[i].userID, order[i].joinAt, i;
      }
    }
    assert order[..|order|] == order;
  }

  // ---- one order against all orders ----

  /** Whatever the iteration order, getHostID gives an allowed answer. */
  lemma EveryOrderGivesAChoice(order: seq<Session>, s: Sessions, locked: Id, current: Id, bot: Id, h: Id)
    requires Visits(order, s)
    requires Answer(order, locked, current, bot, h)
    ensures HostChoice(s, locked, current, bot, h)
  {
  }

  lemma ListedIffInCall(order: seq<Session>, s: Sessions, user: Id)
    requires Visits(order, s)
    ensures Listed(order, user) <==> InCall(s, user)
  {
  }

  /** And every allowed answer is given for some iteration order: the choice is exact. */
  lemma EveryChoiceHasAnOrder(s: Sessions, locked: Id, current: Id, bot: Id, h: Id)
    requires forall k | k in s :: s[k].id == k
    requires HostChoice(s, locked, current, bot, h)
    ensures exists order :: Visits(order, s) && Answer(order, locked, current, bot, h)
  {
    if !(locked != NONE && InCall(s, locked)) && !InCall(s, current) && !OnlyBot(s, bot) {
      var k :| Earliest(s, bot, k) && s[k].userID == h;
      var rest := AnOrder(s - {k});
      var order := [s[k]] + rest;
      VisitFirst(s, k, rest);
      assert FirstEarliest(order, bot, 0) && order[0].userID == h;
      ListedIffInCall(order, s, locked);
      ListedIffInCall(order, s, current);
      assert Answer(order, locked, current, bot, h);
    } else {
      var order := AnOrder(s);
      ListedIffInCall(order, s, locked);
      ListedIffInCall(order, s, current);
      assert Answer(order, locked, current, bot, h);
    }
  }

  lemma VisitFirst(s: Sessions, k: Id, rest: seq<Session>)
    requires k in s && s[k].id == k && Visits(rest, s - {k})
    ensures Visits([s[k]] + rest, s)
  {
    var order := [s[k]] + rest;
    forall x | x in s ensures s[x] in order && s[x].id == x {
      if x != k { assert (s - {k})[x] in rest; }
    }
    forall i | 0 <= i < |order| ensures order[i].id in s && s[order[i].id] == order[i] {
      if i > 0 { assert order[i] == rest[i - 1]; }
    }
    forall i, j | 0 <= i < j < |order| ensures order[i].id != order[j].id {
      assert order[j] == rest[j - 1] && rest[j - 1].id in s - {k};
      if i > 0 { assert order[i] == rest[i - 1]; }
    }
  }

  lemma {:induction false} AnOrder(s: Sessions) returns (order: seq<Session>)
    requires forall k | k in s :: s[k].id == k
    ensures Visits(order, s)
    decreases |s|
  {
    if s == map[] {
      order := [];
    } else {
      var k :| k in s;
      var rest := AnOrder(s - {k});
      order := [s[k]] + rest;
      VisitFirst(s, k, rest);
    }
  }

  /** When one user alone attains the earliest join time, map order cannot matter. */
  lemma UniqueChoice(s: Sessions, locked: Id, current: Id, bot: Id, h1: Id, h2: Id)
    requires HostChoice(s, locked, current, bot, h1) && HostChoice(s, locked, current, bot, h2)
    requires forall j, k | Earliest(s, bot, j) && Earliest(s, bot, k) :: s[j].userID == s[k].userID
    ensures h1 == h2
  {
  }
}
