/**
 * admin/users.php: the role change an administrator submits, and the order in which the
 * merged user list is shown. A non-positive id names an external subscriber, which is
 * first matched to, or imported as, a local user; a positive id is a local user.
 */
module AdminUsers {
  import opened Php
  import Csrf
  import Users

  const InvalidSubmission := "Invalid submission. Please try again."
  const SubscriberNotFound := "External subscriber not found. Cannot change role."
  const NoEmail := "External subscriber has no email address; cannot import."
  const ImportFailed := "Failed to import external subscriber: "
  const RoleNotSet := "Imported user created but failed to set role."
  const UpdateFailed := "Unable to update role."

  /** The subscriber row with the id (`SELECT … WHERE id = ? LIMIT 1`); None without a subscriber connection. */
  function FindSubscriber(rows: Option<seq<Users.SubscriberRow>>, id: int): (r: Option<Users.SubscriberRow>)
    ensures r.Some? ==> rows.Some? && r.value in rows.value && r.value.id == id
    ensures r.None? && rows.Some? ==> forall i :: 0 <= i < |rows.value| ==> rows.value[i].id != id
  {
    if rows.None? then None else FirstWithId(rows.value, id)
  }

  function FirstWithId(rows: seq<Users.SubscriberRow>, id: int): (r: Option<Users.SubscriberRow>)
    ensures r.Some? ==> r.value in rows && r.value.id == id
    ensures r.None? ==> forall i :: 0 <= i < |rows| ==> rows[i].id != id
  {
    FirstWhere(rows, (row: Users.SubscriberRow) => row.id == id)
  }

  /** The local user an import reuses: the first with the same email, when the lookup could run and its id is not empty. */
  function Existing(users: seq<Users.User>, email: string, checkPrepared: bool): (r: Option<int>)
    ensures r.Some? ==> r.value != 0 && exists i :: 0 <= i < |users| && users[i].id == r.value && users[i].email == email
    ensures checkPrepared && (forall i :: 0 <= i < |users| ==> users[i].email != email) ==> r.None?
  {
    if !checkPrepared then None
    else
      var found := Users.FindByEmail(users, email);
      if found.Some? && found.value.id != 0 then Some(found.value.id) else None
  }

  /** How the import's statements fare: the lookup and the insert (with its error text), and the role UPDATE. */
  datatype ImportIo = ImportIo(checkPrepared: bool, insertPrepared: bool, insertExecutes: bool,
                               insertError: string, connectionError: string, updateExecutes: bool)

  /** What the page reports after a role change. */
  datatype Report = Report(errors: seq<string>, successMessage: string)

  /** The role the form asks for, `customer` when absent; None when it is not one of the three. */
  function RequestedRole(rolePost: Option<string>): Option<Users.Role>
  {
    Users.ParseRole(Sanitize(if rolePost.Some? then rolePost.value else "customer"))
  }

  /** The role-change POST branch of admin/users.php. */
  method ChangeRole(db: Users.UserDb, csrf: Csrf.TokenStore, token: Option<string>, userId: int,
                    rolePost: Option<string>, subscribers: Option<seq<Users.SubscriberRow>>, io: ImportIo)
    returns (report: Report)
    requires db.Valid()
    modifies db, csrf
    ensures db.Valid()
    ensures csrf.tokens == if Csrf.Accepts(old(csrf.tokens), "admin_user", token)
                           then Csrf.Consume(old(csrf.tokens), "admin_user", token.value) else old(csrf.tokens)
    ensures !Csrf.Accepts(old(csrf.tokens), "admin_user", token) ==>
              report == Report([InvalidSubmission], "") && db.users == old(db.users) && db.nextId == old(db.nextId)
    ensures Csrf.Accepts(old(csrf.tokens), "admin_user", token) && userId > 0 ==>
              var role := RequestedRole(rolePost);
              var ok := role.Some? && io.updateExecutes;
              && report == (if ok then Report([], "Role updated.") else Report([UpdateFailed], ""))
              && db.users == (if ok then Users.SetRole(old(db.users), userId, role.value) else old(db.users))
              && db.nextId == old(db.nextId)
    ensures Csrf.Accepts(old(csrf.tokens), "admin_user", token) && userId <= 0 ==>
              ExternalChange(old(db.users), old(db.nextId), db.users, db.nextId, report,
                             FindSubscriber(subscribers, -userId), RequestedRole(rolePost), io)
  {
    var valid := csrf.Validate("admin_user", token);
    if !valid {
      return Report([InvalidSubmission], "");
    }
    var role := Sanitize(if rolePost.Some? then rolePost.value else "customer");
    if userId <= 0 {
      report := ChangeExternalRole(db, FindSubscriber(subscribers, -userId), role, io);
    } else {
      var ok := db.UpdateUserRole(userId, role, io.updateExecutes);
      if ok {
        report := Report([], "Role updated.");
      } else {
        report := Report([UpdateFailed], "");
      }
    }
  }

  /** The email an import uses: the subscriber's, trimmed; "" without a subscriber. */
  function SubscriberEmail(sub: Option<Users.SubscriberRow>): string
  {
    if sub.Some? then Trim(Users.OrElse(sub.value.email, "")) else ""
  }

  /**
   * What the external-import path does, from the users before (`users`, `nextId`) to the
   * users after (`after`, `nextAfter`) and the report: a missing subscriber or email changes
   * nothing; otherwise the local user with that email, or a newly inserted one, gets the role.
   * Only a successful insert moves the next id on.
   */
  predicate ExternalChange(users: seq<Users.User>, nextId: int, after: seq<Users.User>, nextAfter: int, report: Report,
                           sub: Option<Users.SubscriberRow>, role: Option<Users.Role>, io: ImportIo)
  {
    var email := SubscriberEmail(sub);
    var ok := role.Some? && io.updateExecutes;
    var existing := Existing(users, email, io.checkPrepared);
    var inserted := io.insertPrepared && io.insertExecutes;
    var success := Report([], "External user imported and role updated.");
    if sub.None? then report == Report([SubscriberNotFound], "") && after == users && nextAfter == nextId
    else if email == "" then report == Report([NoEmail], "") && after == users && nextAfter == nextId
    else if existing.Some? then
      && report == (if ok then success else Report([RoleNotSet], ""))
      && after == (if ok then Users.SetRole(users, existing.value, role.value) else users)
      && nextAfter == nextId
    else if !inserted then
      && report == Report([ImportFailed + (if io.insertPrepared then io.insertError else io.connectionError)], "")
      && after == users
      && nextAfter == nextId
    else
      var imported := users + [ImportedUser(nextId, sub.value)];
      && report == (if ok then success else Report([RoleNotSet], ""))
      && after == (if ok then Users.SetRole(imported, nextId, role.value) else imported)
      && nextAfter == nextId + 1
  }

  /** The role change for a non-positive id: find the subscriber, reuse or import the local user, then set the role. */
  method ChangeExternalRole(db: Users.UserDb, sub: Option<Users.SubscriberRow>, role: string, io: ImportIo)
    returns (report: Report)
    requires db.Valid()
    modifies db
    ensures db.Valid()
    ensures ExternalChange(old(db.users), old(db.nextId), db.users, db.nextId, report, sub, Users.ParseRole(role), io)
  {
    if sub.None? {
      return Report([SubscriberNotFound], "");
    }
    var email := Trim(Users.OrElse(sub.value.email, ""));
    if email == "" {
      return Report([NoEmail], "");
    }
    var name := Trim(Users.OrElse(sub.value.firstName, "") + " " + Users.OrElse(sub.value.lastName, ""));
    var phone := Trim(Users.OrElse(sub.value.phone, ""));
    var localId: int;
    var existing := Existing(db.users, email, io.checkPrepared);
    if existing.Some? {
      localId := existing.value;
    } else if io.insertPrepared {
      var inserted := db.InsertUser(name, email, "customer", phone, io.insertExecutes);
      if inserted.None? {
        return Report([ImportFailed + io.insertError], "");
      }
      localId := inserted.value;
    } else {
      return Report([ImportFailed + io.connectionError], "");
    }
    var ok := db.UpdateUserRole(localId, role, io.updateExecutes);
    if ok {
      report := Report([], "External user imported and role updated.");
    } else {
      report := Report([RoleNotSet], "");
    }
  }

  /** The local user an import inserts: the trimmed full name, email and phone, role `customer`. */
  function ImportedUser(id: int, sub: Users.SubscriberRow): Users.User
  {
    Users.User(id, Trim(Users.OrElse(sub.firstName, "") + " " + Users.OrElse(sub.lastName, "")),
               Trim(Users.OrElse(sub.email, "")), "customer", Trim(Users.OrElse(sub.phone, "")))
  }

  // ---------------------------------------------------------------- display order

  predicate IsAdmin(u: Users.UserEntry)
  {
    u.role == "admin"
  }

  /** `$adminUsers`: the administrators in list order. */
  function Admins(users: seq<Users.UserEntry>): (r: seq<Users.UserEntry>)
    ensures forall i :: 0 <= i < |r| ==> IsAdmin(r[i])
    ensures |r| <= |users|
  {
    if users == [] then []
    else
      var n := |users| - 1;
      Admins(users[..n]) + (if IsAdmin(users[n]) then [users[n]] else [])
  }

  /** `$otherUsers`: everyone else, in list order. */
  function Others(users: seq<Users.UserEntry>): (r: seq<Users.UserEntry>)
    ensures forall i :: 0 <= i < |r| ==> !IsAdmin(r[i])
    ensures |r| <= |users|
  {
    if users == [] then []
    else
      var n := |users| - 1;
      Others(users[..n]) + (if IsAdmin(users[n]) then [] else [users[n]])
  }

  /** The two groups together hold exactly the listed users: the display order is a permutation. */
  lemma {:induction false} GroupsPartition(users: seq<Users.UserEntry>)
    ensures multiset(Admins(users)) + multiset(Others(users)) == multiset(users)
  {
    if users != [] {
      var n := |users| - 1;
      GroupsPartition(users[..n]);
      assert users == users[..n] + [users[n]];
    }
  }

  /** Each group keeps the list order: splitting a list in two splits each group the same way. */
  lemma {:induction false} GroupsKeepListOrder(front: seq<Users.UserEntry>, back: seq<Users.UserEntry>)
    ensures Admins(front + back) == Admins(front) + Admins(back)
    ensures Others(front + back) == Others(front) + Others(back)
  {
    if back != [] {
      var n := |back| - 1;
      GroupsKeepListOrder(front, back[..n]);
      assert (front + back)[..|front| + n] == front + back[..n];
    }
    else {
      assert front + back == front;
    }
  }

  /**
   * The display order: a permutation of the list in which every administrator comes
   * before every other user.
   */
  lemma DisplayOrderIsAdminsFirst(users: seq<Users.UserEntry>)
    ensures var ordered := Admins(users) + Others(users);
      && |ordered| == |users|
      && multiset(ordered) == multiset(users)
      && forall i, j :: 0 <= i < j < |ordered| && IsAdmin(ordered[j]) ==> IsAdmin(ordered[i])
  {
    GroupsPartition(users);
    var ordered := Admins(users) + Others(users);
    assert |multiset(ordered)| == |multiset(users)|;
  }

  /** The `foreach` that splits the list, then `array_merge`. */
  method OrderForDisplay(users: seq<Users.UserEntry>) returns (ordered: seq<Users.UserEntry>)
    ensures ordered == Admins(users) + Others(users)
  {
    var adminUsers: seq<Users.UserEntry> := [];
    var otherUsers: seq<Users.UserEntry> := [];
    for i := 0 to |users|
      invariant adminUsers == Admins(users[..i]) && otherUsers == Others(users[..i])
    {
      assert users[..i + 1][..i] == users[..i];
      if IsAdmin(users[i]) {
        adminUsers := adminUsers + [users[i]];
      } else {
        otherUsers := otherUsers + [users[i]];
      }
    }
    assert users[..|users|] == users;
    ordered := adminUsers + otherUsers;
  }

  /** The table rows with `$displayIndex++`: numbers 1, 2, … in display order. */
  method Number(ordered: seq<Users.UserEntry>) returns (rows: seq<(int, Users.UserEntry)>)
    ensures |rows| == |ordered|
    ensures forall i :: 0 <= i < |rows| ==> rows[i].0 == i + 1 && rows[i].1 == ordered[i]
  {
    rows := [];
    var displayIndex := 1;
    for i := 0 to |ordered|
      invariant |rows| == i && displayIndex == i + 1
      invariant forall k :: 0 <= k < i ==> rows[k].0 == k + 1 && rows[k].1 == ordered[k]
    {
      rows := rows + [(displayIndex, ordered[i])];
      displayIndex := displayIndex + 1;
    }
  }
}
