/**
 * Users of includes/functions.php: the admin user list that get_all_users() merges from
 * the local `users` table and the external subscriber table, and update_user_role() over
 * the closed set of three roles. Both tables are passed in or kept as sequences of rows.
 */
module Users {
  import opened Php

  datatype Role = Customer | Artisan | Admin
  {
    function Name(): string
    {
      match this
      case Customer => "customer"
      case Artisan => "artisan"
      case Admin => "admin"
    }
  }

  /** The `in_array($role, $allowed, true)` test of update_user_role(). */
  function ParseRole(s: string): (r: Option<Role>)
    ensures r.Some? ==> r.value.Name() == s
  {
    if s == "customer" then Some(Customer)
    else if s == "artisan" then Some(Artisan)
    else if s == "admin" then Some(Admin)
    else None
  }

  /** Every role name is accepted and means its role. */
  lemma ParseRoleName(role: Role)
    ensures ParseRole(role.Name()) == Some(role)
  {
  }

  /** A row of the local `users` table as the query returns it; NULL columns are None. */
  datatype LocalRow = LocalRow(id: int, name: Option<string>, email: Option<string>,
                               role: Option<string>, phone: Option<string>)

  /** A row of the external subscriber table. */
  datatype SubscriberRow = SubscriberRow(id: int, firstName: Option<string>, lastName: Option<string>,
                                         email: Option<string>, phone: Option<string>)

  datatype Source = Local | FluentCrm

  /** An entry of the merged user list. */
  datatype UserEntry = UserEntry(id: int, name: string, email: string, role: string,
                                 phone: Option<string>, source: Source)

  function OrElse(s: Option<string>, default: string): string
  {
    if s.Some? then s.value else default
  }

  /** The normalisation get_all_users() applies to a local row. */
  function LocalEntry(u: LocalRow): (e: UserEntry)
    ensures e.source == Local && e.id == u.id
    ensures e.role == (if u.role.Some? then u.role.value else "customer")
  {
    UserEntry(u.id, OrElse(u.name, ""), OrElse(u.email, ""), OrElse(u.role, "customer"), u.phone, Local)
  }

  function LocalEntries(local: seq<LocalRow>): (r: seq<UserEntry>)
    ensures |r| == |local| && forall i :: 0 <= i < |local| ==> r[i] == LocalEntry(local[i])
  {
    seq(|local|, i requires 0 <= i < |local| => LocalEntry(local[i]))
  }

  /** `$seenEmails`: the lower-cased non-empty local emails. */
  function Seen(local: seq<LocalRow>): set<string>
  {
    if local == [] then {}
    else
      var n := |local| - 1;
      var email := LocalEntry(local[n]).email;
      Seen(local[..n]) + (if email != "" then {Lower(email)} else {})
  }

  /** A local user's non-empty email, lower-cased, is among the seen ones. */
  lemma {:induction false} SeenHasLocalEmails(local: seq<LocalRow>, i: nat)
    requires i < |local| && LocalEntry(local[i]).email != ""
    ensures Lower(LocalEntry(local[i]).email) in Seen(local)
  {
    var n := |local| - 1;
    if i < n {
      SeenHasLocalEmails(local[..n], i);
      assert local[..n][i] == local[i];
    }
  }

  /** The entry a subscriber becomes: negated id, trimmed full name or else the email, role customer. */
  function SubscriberEntry(row: SubscriberRow): (r: UserEntry)
    ensures r.id == -row.id && r.source == FluentCrm && r.role == "customer"
  {
    var email := Trim(OrElse(row.email, ""));
    var fullName := Trim(OrElse(row.firstName, "") + " " + OrElse(row.lastName, ""));
    UserEntry(-1 * row.id, if fullName == "" then email else fullName, email, "customer", row.phone, FluentCrm)
  }

  /** Whether the merge keeps a subscriber: a non-empty trimmed email that no local user has. */
  predicate Kept(row: SubscriberRow, seen: set<string>)
  {
    var email := Trim(OrElse(row.email, ""));
    email != "" && Lower(email) !in seen
  }

  /** The subscribers the merge adds, in query order. */
  function Imported(subscribers: seq<SubscriberRow>, seen: set<string>): (r: seq<UserEntry>)
    ensures |r| <= |subscribers|
  {
    if subscribers == [] then []
    else
      var n := |subscribers| - 1;
      Imported(subscribers[..n], seen) + Added(subscribers[n], seen)
  }

  /** What one subscriber row adds to the merge: its entry when it is kept, nothing otherwise. */
  function Added(row: SubscriberRow, seen: set<string>): seq<UserEntry>
  {
    if Kept(row, seen) then [SubscriberEntry(row)] else []
  }

  /** Every imported entry is a named customer from FluentCRM whose email is not among the seen ones. */
  lemma {:induction false} ImportedIsNew(subscribers: seq<SubscriberRow>, seen: set<string>, k: nat)
    requires k < |Imported(subscribers, seen)|
    ensures var e := Imported(subscribers, seen)[k];
      && e.source == FluentCrm && e.role == "customer"
      && e.email != "" && Lower(e.email) !in seen
      && e.name != ""
  {
    var n := |subscribers| - 1;
    var front := Imported(subscribers[..n], seen);
    assert Imported(subscribers, seen) == front + Added(subscribers[n], seen);
    if k < |front| {
      ImportedIsNew(subscribers[..n], seen, k);
    } else {
      KeptEntryIsNew(subscribers[n], seen);
    }
  }

  /** The entry of a kept subscriber is a named FluentCRM customer with its new email. */
  lemma KeptEntryIsNew(row: SubscriberRow, seen: set<string>)
    requires Kept(row, seen)
    ensures var e := SubscriberEntry(row);
      && e.source == FluentCrm && e.role == "customer"
      && e.email != "" && Lower(e.email) !in seen
      && e.name != ""
  {
  }

  /** The merge keeps query order: splitting the subscriber rows splits the added entries the same way. */
  lemma {:induction false} ImportedSplits(front: seq<SubscriberRow>, back: seq<SubscriberRow>, seen: set<string>)
    ensures Imported(front + back, seen) == Imported(front, seen) + Imported(back, seen)
  {
    if back == [] {
      assert front + back == front;
    } else {
      var n := |back| - 1;
      DropLastOfAppend(front, back);
      ImportedSplits(front, back[..n], seen);
    }
  }

  /** The merge drops no one it keeps: every subscriber with a new non-empty email is added. */
  lemma ImportedIsComplete(subscribers: seq<SubscriberRow>, seen: set<string>, j: nat)
    requires j < |subscribers| && Kept(subscribers[j], seen)
    ensures SubscriberEntry(subscribers[j]) in Imported(subscribers, seen)
  {
    var row := subscribers[j];
    SplitAround(subscribers, j);
    ImportedSplits(subscribers[..j] + [row], subscribers[j + 1..], seen);
    ImportedSplits(subscribers[..j], [row], seen);
    assert Imported([row], seen) == Added(row, seen);
  }

  /** get_all_users(): the local users in query order, then the subscribers not already present. */
  function AllUsers(local: seq<LocalRow>, subscribers: Option<seq<SubscriberRow>>): seq<UserEntry>
  {
    LocalEntries(local) + (if subscribers.None? then [] else Imported(subscribers.value, Seen(local)))
  }

  /** Every local user is listed first, unchanged and in query order. */
  lemma MergeKeepsLocalFirst(local: seq<LocalRow>, subscribers: Option<seq<SubscriberRow>>)
    ensures AllUsers(local, subscribers)[..|local|] == LocalEntries(local)
  {
    var imported := if subscribers.None? then [] else Imported(subscribers.value, Seen(local));
    assert AllUsers(local, subscribers) == LocalEntries(local) + imported;
  }

  /**
   * Every entry after the local users comes from FluentCRM and has an email no local user
   * has, ignoring letter case: the merge never lists a person twice by email.
   */
  lemma MergeAddsOnlyNewEmails(local: seq<LocalRow>, subscribers: Option<seq<SubscriberRow>>)
    ensures var all := AllUsers(local, subscribers);
      forall k :: |local| <= k < |all| ==>
        all[k].source == FluentCrm
        && forall i :: 0 <= i < |local| ==> Lower(all[k].email) != Lower(LocalEntry(local[i]).email)
  {
    var all := AllUsers(local, subscribers);
    var imported := if subscribers.None? then [] else Imported(subscribers.value, Seen(local));
    assert all == LocalEntries(local) + imported;
    forall k | |local| <= k < |all|
      ensures all[k].source == FluentCrm
      ensures forall i :: 0 <= i < |local| ==> Lower(all[k].email) != Lower(LocalEntry(local[i]).email)
    {
      assert all[k] == imported[k - |local|];
      ImportedIsNotLocal(local, subscribers.value, k - |local|);
    }
  }

  /** One imported entry: it comes from FluentCRM and no local user has its email, ignoring letter case. */
  lemma ImportedIsNotLocal(local: seq<LocalRow>, subscribers: seq<SubscriberRow>, k: nat)
    requires k < |Imported(subscribers, Seen(local))|
    ensures var e := Imported(subscribers, Seen(local))[k];
      && e.source == FluentCrm
      && forall i :: 0 <= i < |local| ==> Lower(e.email) != Lower(LocalEntry(local[i]).email)
  {
    ImportedIsNew(subscribers, Seen(local), k);
    NotLocalEmail(local, Imported(subscribers, Seen(local))[k].email);
  }

  /** A non-empty email outside the seen ones is no local user's, ignoring letter case. */
  lemma NotLocalEmail(local: seq<LocalRow>, email: string)
    requires email != "" && Lower(email) !in Seen(local)
    ensures forall i :: 0 <= i < |local| ==> Lower(email) != Lower(LocalEntry(local[i]).email)
  {
    forall i | 0 <= i < |local|
      ensures Lower(email) != Lower(LocalEntry(local[i]).email)
    {
      if LocalEntry(local[i]).email == "" {
        assert |Lower(email)| != 0;
      } else {
        SeenHasLocalEmails(local, i);
      }
    }
  }

  /**
   * Each imported entry is the entry of a subscriber the merge keeps; by SubscriberEntry's
   * contract it carries that subscriber's id negated.
   */
  lemma {:induction false} ImportedFromKept(subscribers: seq<SubscriberRow>, seen: set<string>, k: nat)
    requires k < |Imported(subscribers, seen)|
    ensures exists j :: 0 <= j < |subscribers| && Kept(subscribers[j], seen)
                        && Imported(subscribers, seen)[k] == SubscriberEntry(subscribers[j])
  {
    var n := |subscribers| - 1;
    var init := Imported(subscribers[..n], seen);
    if k < |init| {
      ImportedFromKept(subscribers[..n], seen, k);
      var j :| 0 <= j < n && Kept(subscribers[..n][j], seen) && init[k] == SubscriberEntry(subscribers[..n][j]);
      assert subscribers[..n][j] == subscribers[j];
      assert Imported(subscribers, seen)[k] == init[k];
    } else {
      assert Imported(subscribers, seen)[k] == SubscriberEntry(subscribers[n]);
    }
  }

  /** The loops of get_all_users(); a missing subscriber connection or query is None. */
  method GetAllUsers(local: seq<LocalRow>, subscribers: Option<seq<SubscriberRow>>) returns (merged: seq<UserEntry>)
    ensures merged == AllUsers(local, subscribers)
  {
    var normalized, seen := NormalizeLocal(local);
    merged := normalized;
    if subscribers.None? {
      return;
    }
    var imported := MergeSubscribers(subscribers.value, seen);
    merged := merged + imported;
  }

  /** The first loop of get_all_users(): normalise each local row and note its email. */
  method NormalizeLocal(local: seq<LocalRow>) returns (normalized: seq<UserEntry>, seen: set<string>)
    ensures normalized == LocalEntries(local) && seen == Seen(local)
  {
    normalized := [];
    seen := {};
    for i := 0 to |local|
      invariant normalized == LocalEntries(local[..i])
      invariant seen == Seen(local[..i])
    {
      var u := LocalEntry(local[i]);
      NormalizeStep(local, i);
      normalized := normalized + [u];
      if u.email != "" {
        seen := seen + {Lower(u.email)};
      }
    }
    assert local[..|local|] == local;
  }

  /** One more local row: its entry is appended, and its email, if any, joins the seen ones. */
  lemma NormalizeStep(local: seq<LocalRow>, i: nat)
    requires i < |local|
    ensures LocalEntries(local[..i + 1]) == LocalEntries(local[..i]) + [LocalEntry(local[i])]
    ensures Seen(local[..i + 1]) ==
            Seen(local[..i]) + (if LocalEntry(local[i]).email != "" then {Lower(LocalEntry(local[i]).email)} else {})
  {
    assert local[..i + 1][..i] == local[..i];
  }

  /** The second loop of get_all_users(): the subscribers that pass the two `continue` tests. */
  method MergeSubscribers(rows: seq<SubscriberRow>, seen: set<string>) returns (imported: seq<UserEntry>)
    ensures imported == Imported(rows, seen)
  {
    imported := [];
    for i := 0 to |rows|
      invariant imported == Imported(rows[..i], seen)
    {
      assert rows[..i + 1][..i] == rows[..i];
      var email := Trim(OrElse(rows[i].email, ""));
      if email == "" {
        continue;
      }
      if Lower(email) in seen {
        continue;
      }
      var fullName := Trim(OrElse(rows[i].firstName, "") + " " + OrElse(rows[i].lastName, ""));
      if fullName == "" {
        fullName := email;
      }
      var entry := UserEntry(-1 * rows[i].id, fullName, email, "customer", rows[i].phone, FluentCrm);
      assert entry == SubscriberEntry(rows[i]);
      imported := imported + [entry];
    }
    assert rows[..|rows|] == rows;
  }

  // ---------------------------------------------------------------- the users table

  /** A row of the local `users` table as stored. */
  datatype User = User(id: int, name: string, email: string, role: string, phone: string)

  /** The users with the id get the role name, every other row stays as it was. */
  function SetRole(users: seq<User>, userId: int, role: Role): (r: seq<User>)
    ensures |r| == |users|
    ensures forall i :: 0 <= i < |users| ==>
              r[i] == if users[i].id == userId then users[i].(role := role.Name()) else users[i]
  {
    seq(|users|, i requires 0 <= i < |users| =>
      if users[i].id == userId then users[i].(role := role.Name()) else users[i])
  }

  /** The first user with the email (`SELECT id FROM users WHERE email = ? LIMIT 1`). */
  function FindByEmail(users: seq<User>, email: string): (r: Option<User>)
    ensures r.Some? ==> r.value in users && r.value.email == email
    ensures r.None? ==> forall i :: 0 <= i < |users| ==> users[i].email != email
  {
    FirstWhere(users, (u: User) => u.email == email)
  }

  class UserDb {
    var users: seq<User>
    /** The next AUTO_INCREMENT value of users.id. */
    var nextId: int

    /** AUTO_INCREMENT stays above every id the table holds, so the next insert gets a fresh id. */
    predicate Valid()
      reads this
    {
      forall i :: 0 <= i < |users| ==> users[i].id < nextId
    }

    constructor (initial: seq<User>, next: int)
      requires forall i :: 0 <= i < |initial| ==> initial[i].id < next
      ensures users == initial && nextId == next && Valid()
    {
      users := initial;
      nextId := next;
    }

    /** update_user_role($userId, $role): only the three role names, then the UPDATE may fail. */
    method UpdateUserRole(userId: int, role: string, executes: bool) returns (ok: bool)
      requires Valid()
      modifies this
      ensures Valid()
      ensures ok <==> ParseRole(role).Some? && executes
      ensures ok ==> users == SetRole(old(users), userId, ParseRole(role).value)
      ensures !ok ==> users == old(users)
      ensures nextId == old(nextId)
    {
      var r := ParseRole(role);
      if r.None? {
        return false;
      }
      ok := executes;
      if executes {
        users := SetRole(users, userId, r.value);
      }
    }

    /** The INSERT of a new local user; on success it gets the next id. */
    method InsertUser(name: string, email: string, role: string, phone: string, executes: bool)
      returns (id: Option<int>)
      requires Valid()
      modifies this
      ensures Valid()
      ensures id.Some? ==> forall i :: 0 <= i < |old(users)| ==> old(users)[i].id != id.value
      ensures executes ==> id == Some(old(nextId)) && nextId == old(nextId) + 1
                           && users == old(users) + [User(old(nextId), name, email, role, phone)]
      ensures !executes ==> id == None && unchanged(this)
    {
      if !executes {
        return None;
      }
      id := Some(nextId);
      users := users + [User(nextId, name, email, role, phone)];
      nextId := nextId + 1;
    }
  }
}
