/** The users a VM is shared with. */
module SharedUsers {
  import opened Tables

  datatype SharedUser = SharedUser(vm: nat, user: nat, permission: string)

  type Rows = map<nat, SharedUser>
  type Names = map<nat, string>

  predicate ValidRole(role: string) { role == "readonly" || role == "readwrite" }

  /** The database constraint `unique_shared_vm_user`. */
  ghost predicate UniquePairs(rows: Rows) {
    forall i, j | i in rows && j in rows && rows[i].vm == rows[j].vm && rows[i].user == rows[j].user :: i == j
  }

  ghost predicate DistinctNames(names: Names) {
    forall u, v | u in names && v in names && names[u] == names[v] :: u == v
  }

  /** Every row refers to a user, and no user has two rows for one VM. */
  ghost predicate Sound(rows: Rows, names: Names) {
    && UniquePairs(rows)
    && DistinctNames(names)
    && (forall id | id in rows :: rows[id].user in names)
  }

  /** This row of the VM belongs to the user of that name. */
  predicate Of(row: SharedUser, names: Names, vm: nat, name: string) {
    row.vm == vm && row.user in names && names[row.user] == name
  }

  /** The VM is shared with the named user, in that role. */
  ghost predicate Shared(rows: Rows, names: Names, vm: nat, name: string, role: string) {
    exists id | id in rows :: Of(rows[id], names, vm, name) && rows[id].permission == role
  }

  /** The request says the same about the row's user as the row does. */
  predicate Unchanged(row: SharedUser, names: Names, request: map<string, string>) {
    row.user in names && names[row.user] in request && request[names[row.user]] == row.permission
  }

  /** `after` is `before` with the users of `vm` replaced by the requested ones. */
  ghost predicate Replaced(before: Rows, after: Rows, names: Names, vm: nat, request: map<string, string>) {
    && Sound(before, names) && Sound(after, names)
    && (forall name, role :: Shared(after, names, vm, name, role) <==> name in request && request[name] == role)
    && (forall id | id in before :: id in after <==> before[id].vm != vm || Unchanged(before[id], names, request))
    && (forall id | id in before && id in after :: after[id] == before[id])
    && (forall id | id in after && after[id].vm != vm :: id in before)
  }

  /** The same request again touches no row, so that every row keeps its id. */
  lemma ReplacingAgainChangesNothing(a: Rows, b: Rows, c: Rows, names: Names, vm: nat, request: map<string, string>)
    requires Replaced(a, b, names, vm, request) && Replaced(b, c, names, vm, request)
    ensures c == b
  {
    forall id | id in b ensures id in c {
      if b[id].vm == vm {
        assert Of(b[id], names, vm, names[b[id].user]);
        assert Shared(b, names, vm, names[b[id].user], b[id].permission);
      }
    }
    forall id | id in c ensures id in b {
      if c[id].vm == vm {
        var name, role := names[c[id].user], c[id].permission;
        assert Of(c[id], names, vm, name);
        assert Shared(c, names, vm, name, role);
        assert Shared(b, names, vm, name, role);
        var was :| was in b && Of(b[was], names, vm, name) && b[was].permission == role;
        assert was in c;
      }
    }
  }

  /** Nobody else's sharing changes. */
  lemma OtherVmsUndisturbed(a: Rows, b: Rows, names: Names, vm: nat, request: map<string, string>,
                            other: nat, name: string, role: string)
    requires Replaced(a, b, names, vm, request) && other != vm
    ensures Shared(b, names, other, name, role) <==> Shared(a, names, other, name, role)
  {
    forall id | id in a && a[id].vm == other ensures id in b && b[id] == a[id] {
    }
    forall id | id in b && b[id].vm == other ensures id in a && a[id] == b[id] {
    }
  }

  /** The request is refused: an invalid role, or a user to be added that is not known. */
  ghost predicate Refused(rows: Rows, names: Names, vm: nat, request: map<string, string>, users: map<string, nat>) {
    exists name | name in request ::
      !ValidRole(request[name]) || (name !in users && !Shared(rows, names, vm, name, request[name]))
  }

  /** Roles, users and rows of a refused request, on the fields. */
  lemma RefusedOnFields(rows: Rows, names: Names, vm: nat, request: map<string, string>, users: map<string, nat>)
    ensures Refused(rows, names, vm, request, users)
      <==> exists name | name in request ::
             || (request[name] != "readonly" && request[name] != "readwrite")
             || (name !in users && forall id | id in rows && rows[id].vm == vm && rows[id].user in names ::
                   names[rows[id].user] != name || rows[id].permission != request[name])
  {
    forall name | name in request
      ensures Shared(rows, names, vm, name, request[name])
        <==> exists id | id in rows && rows[id].vm == vm && rows[id].user in names ::
               names[rows[id].user] == name && rows[id].permission == request[name]
    {
      forall id | id in rows ensures Of(rows[id], names, vm, name)
        <==> rows[id].vm == vm && rows[id].user in names && names[rows[id].user] == name {}
    }
  }

  /** What replacing the users of a VM leaves, on the fields: one row for each requested user with the
      requested role and no other row of the VM; rows that said the same before, and the rows of all other
      VMs, are untouched. */
  lemma ReplacedOnFields(before: Rows, after: Rows, names: Names, vm: nat, request: map<string, string>)
    requires Replaced(before, after, names, vm, request)
    ensures forall id | id in after && after[id].vm == vm ::
      && after[id].user in names && names[after[id].user] in request
      && request[names[after[id].user]] == after[id].permission
    ensures forall name | name in request ::
      exists id | id in after && after[id].user in names ::
        after[id].vm == vm && names[after[id].user] == name && after[id].permission == request[name]
    ensures forall i, j | i in after && j in after && i != j ::
      after[i].vm != after[j].vm || after[i].user != after[j].user
    ensures forall id | id in before ::
      id in after <==> || before[id].vm != vm
                       || (before[id].user in names && names[before[id].user] in request
                           && request[names[before[id].user]] == before[id].permission)
    ensures forall id | id in before && id in after :: after[id] == before[id]
    ensures forall id | id in after && id !in before :: after[id].vm == vm
  {
    forall id | id in after && after[id].vm == vm
      ensures && after[id].user in names && names[after[id].user] in request
              && request[names[after[id].user]] == after[id].permission
    {
      assert Of(after[id], names, vm, names[after[id].user]);
      assert Shared(after, names, vm, names[after[id].user], after[id].permission);
    }
    forall name | name in request
      ensures exists id | id in after && after[id].user in names ::
        after[id].vm == vm && names[after[id].user] == name && after[id].permission == request[name]
    {
      assert Shared(after, names, vm, name, request[name]);
      var id :| id in after && Of(after[id], names, vm, name) && after[id].permission == request[name];
      assert after[id].vm == vm && names[after[id].user] == name;
    }
  }

  // ---------- bulk insertion ----------

  /** The rows are given the next ids in order. */
  function Inserted(rows: Rows, next: nat, adds: seq<SharedUser>): Rows {
    if adds == [] then rows
    else Inserted(rows, next, adds[..|adds| - 1])[next + |adds| - 1 := adds[|adds| - 1]]
  }

  lemma {:induction false} InsertedRows(rows: Rows, next: nat, adds: seq<SharedUser>)
    requires forall id | id in rows :: id < next
    ensures forall id :: id in Inserted(rows, next, adds) <==> id in rows || next <= id < next + |adds|
    ensures forall id | id in rows :: Inserted(rows, next, adds)[id] == rows[id]
    ensures forall id | next <= id < next + |adds| :: Inserted(rows, next, adds)[id] == adds[id - next]
  {
    if adds == [] {
    } else {
      InsertedRows(rows, next, adds[..|adds| - 1]);
    }
  }

  /** The database refuses `row` because of `stored`. */
  predicate Taken(stored: SharedUser, row: SharedUser) { stored.vm == row.vm && stored.user == row.user }

  lemma InsertOne(rows: Rows, next: nat, row: SharedUser, names: Names)
    requires Sound(rows, names) && (forall id | id in rows :: id < next)
    requires row.user in names && forall id | id in rows :: !Taken(rows[id], row)
    ensures Sound(rows[next := row], names)
  {
    forall id | id in rows ensures rows[id].vm == row.vm ==> rows[id].user != row.user {
      assert !Taken(rows[id], row);
    }
  }

  lemma ClashStays(rows: Rows, next: nat, adds: seq<SharedUser>, k: nat, id: nat)
    requires k < |adds| && (forall i | i in rows :: i < next)
    requires id in Inserted(rows, next, adds[..k]) && Taken(Inserted(rows, next, adds[..k])[id], adds[k])
    ensures !UniquePairs(Inserted(rows, next, adds))
  {
    InsertedRows(rows, next, adds[..k]);
    InsertedRows(rows, next, adds);
    var all := Inserted(rows, next, adds);
    assert Taken(all[id], all[next + k]);
  }

  /** One row for each of these users, as requested. */
  ghost predicate ToAdd(adds: seq<SharedUser>, names: Names, vm: nat, request: map<string, string>, who: set<string>) {
    && (forall k | 0 <= k < |adds| ::
          adds[k].vm == vm && Unchanged(adds[k], names, request) && names[adds[k].user] in who)
    && (forall i, j | 0 <= i < j < |adds| :: adds[i].user != adds[j].user)
    && (forall name | name in who :: Has(adds, names, name))
  }

  predicate Has(adds: seq<SharedUser>, names: Names, name: string) {
    exists k | 0 <= k < |adds| :: adds[k].user in names && names[adds[k].user] == name
  }

  lemma AddOne(adds: seq<SharedUser>, names: Names, vm: nat, request: map<string, string>, who: set<string>,
      row: SharedUser)
    requires ToAdd(adds, names, vm, request, who)
    requires row.vm == vm && Unchanged(row, names, request) && names[row.user] !in who
    ensures ToAdd(adds + [row], names, vm, request, who + {names[row.user]})
  {
    var more := adds + [row];
    assert more[|adds|] == row;
    forall name | Has(adds, names, name) ensures Has(more, names, name) {
      var k :| 0 <= k < |adds| && adds[k].user in names && names[adds[k].user] == name;
      assert more[k] == adds[k];
    }
  }

  lemma KeptAreUnchanged(before: Rows, names: Names, vm: nat, request: map<string, string>, noChange: set<string>)
    requires Sound(before, names)
    requires noChange == set name | name in request && Shared(before, names, vm, name, request[name])
    ensures forall id | id in before && before[id].vm == vm ::
              Unchanged(before[id], names, request) <==> names[before[id].user] in noChange
  {
    forall id | id in before && before[id].vm == vm
      ensures Unchanged(before[id], names, request) <==> names[before[id].user] in noChange
    {
      assert Of(before[id], names, vm, names[before[id].user]);
    }
  }

  /** The rows that stay. */
  ghost predicate KeptRows(before: Rows, kept: Rows, names: Names, vm: nat, request: map<string, string>) {
    && (forall id :: id in kept <==> id in before && (before[id].vm != vm || Unchanged(before[id], names, request)))
    && (forall id | id in kept :: kept[id] == before[id])
  }

  /** The bulk insert cannot break the uniqueness of (vm, user). */
  lemma NoClash(before: Rows, kept: Rows, next: nat, adds: seq<SharedUser>, names: Names, vm: nat,
                request: map<string, string>)
    requires Sound(before, names) && KeptRows(before, kept, names, vm, request) && forall id | id in before :: id < next
    requires ToAdd(adds, names, vm, request, set name | name in request
        && !Shared(before, names, vm, name, request[name]))
    ensures UniquePairs(Inserted(kept, next, adds))
  {
    InsertedRows(kept, next, adds);
    forall k, id | 0 <= k < |adds| && id in kept && kept[id].vm == vm ensures kept[id].user != adds[k].user {
      assert Of(before[id], names, vm, names[before[id].user]);
      assert Shared(before, names, vm, names[before[id].user], before[id].permission);
    }
  }

  /** Removing the rows to be changed and inserting the requested ones leaves exactly what was requested. */
  lemma DeleteThenInsertReplaces(before: Rows, kept: Rows, next: nat, adds: seq<SharedUser>,
                                 names: Names, vm: nat, request: map<string, string>)
    requires Sound(before, names) && Sound(Inserted(kept, next, adds), names)
    requires (forall id | id in before :: id < next) && KeptRows(before, kept, names, vm, request)
    requires ToAdd(adds, names, vm, request, set name | name in request
        && !Shared(before, names, vm, name, request[name]))
    ensures Replaced(before, Inserted(kept, next, adds), names, vm, request)
  {
    InsertedRows(kept, next, adds);
    var after := Inserted(kept, next, adds);
    forall name, role | Shared(after, names, vm, name, role) ensures name in request && request[name] == role {
      var id :| id in after && Of(after[id], names, vm, name) && after[id].permission == role;
      assert Unchanged(after[id], names, request);
    }
    forall name | name in request ensures Shared(after, names, vm, name, request[name]) {
      if Shared(before, names, vm, name, request[name]) {
        var id :| id in before && Of(before[id], names, vm, name) && before[id].permission == request[name];
        assert id in after;
      } else {
        assert Has(adds, names, name);
        var k :| 0 <= k < |adds| && adds[k].user in names && names[adds[k].user] == name;
        assert after[next + k] == adds[k];
      }
    }
  }

  class SharedUserTable {
    const names: Names
    var rows: Rows
    var nextId: nat

    ghost predicate Valid() reads this {
      Sound(rows, names) && forall id | id in rows :: id < nextId
    }

    constructor (names: Names)
      requires DistinctNames(names)
      ensures Valid() && this.names == names && rows == map[]
    {
      this.names, rows, nextId := names, map[], 0;
    }

    /** Adds all rows, or none when one of them breaks the uniqueness of (vm, user). */
    method BulkCreate(adds: seq<SharedUser>) returns (ok: bool)
      requires Valid() && forall k | 0 <= k < |adds| :: adds[k].user in names
      modifies this`rows, this`nextId
      ensures Valid() && ok == UniquePairs(Inserted(old(rows), old(nextId), adds))
      ensures rows == if ok then Inserted(old(rows), old(nextId), adds) else old(rows)
    {
      var before, start := rows, nextId;
      var k := 0;
      while k < |adds|
        invariant 0 <= k <= |adds| && Valid() && nextId == start + k
        invariant rows == Inserted(before, start, adds[..k])
      {
        if id :| id in rows && Taken(rows[id], adds[k]) {
          ClashStays(before, start, adds, k, id);
          rows, nextId := before, start;
          return false;
        }
        InsertOne(rows, nextId, adds[k], names);
        rows, nextId := rows[nextId := adds[k]], nextId + 1;
        k := k + 1;
        assert adds[..k][..k - 1] == adds[..k - 1];
      }
      assert adds[..k] == adds;
      return true;
    }

    /** Compares the request with the stored rows: whose row can stay, and the rows to be added. */
    method Compare(vm: nat, request: map<string, string>, users: map<string, nat>)
      returns (r: Result<seq<SharedUser>>, noChange: set<string>)
      requires Valid() && forall name | name in users :: users[name] in names && names[users[name]] == name
      ensures r.Raised? <==> Refused(rows, names, vm, request, users)
      ensures r.Ok? ==> noChange == set name | name in request && Shared(rows, names, vm, name, request[name])
      ensures r.Ok? ==> ToAdd(r.value, names, vm, request,
                              set name | name in request && !Shared(rows, names, vm, name, request[name]))
    {
      var adds: seq<SharedUser>;
      adds, noChange := [], {};
      var todo := request.Keys;
      while todo != {}
        invariant todo <= request.Keys
        invariant noChange == set name | name in request.Keys - todo && Shared(rows, names, vm, name, request[name])
        invariant forall name | name in request.Keys - todo :: ValidRole(request[name])
        invariant forall name | name in request.Keys - todo - noChange :: name in users
        invariant ToAdd(adds, names, vm, request, request.Keys - todo - noChange)
      {
        var name :| name in todo;
        ghost var adding := request.Keys - todo - noChange;
        todo := todo - {name};
        var role := request[name];
        if !ValidRole(role) {
          return Raised, {};
        }
        if exists id | id in rows :: Of(rows[id], names, vm, name) && rows[id].permission == role {
          noChange := noChange + {name};
          assert request.Keys - todo - noChange == adding;
        } else if name !in users {
          return Raised, {};
        } else {
          AddOne(adds, names, vm, request, adding, SharedUser(vm, users[name], role));
          adds := adds + [SharedUser(vm, users[name], role)];
          assert request.Keys - todo - noChange == adding + {name};
        }
      }
      assert request.Keys - todo - noChange == set name | name in request
          && !Shared(rows, names, vm, name, request[name]);
      return Ok(adds), noChange;
    }

    method ReplaceSharedUsers(vm: nat, request: map<string, string>, users: map<string, nat>)
      returns (r: Result<()>)
      requires Valid() && forall name | name in users :: users[name] in names && names[users[name]] == name
      modifies this`rows, this`nextId
      ensures Valid()
      ensures var was := old(rows);
        r.Raised? <==> exists name | name in request ::
          || (request[name] != "readonly" && request[name] != "readwrite")
          || (name !in users && forall id | id in was && was[id].vm == vm && was[id].user in names ::
                names[was[id].user] != name || was[id].permission != request[name])
      ensures r.Raised? ==> rows == old(rows)
      ensures r.Ok? ==> Replaced(old(rows), rows, names, vm, request)
    {
      RefusedOnFields(rows, names, vm, request, users);
      if request == map[] {
        rows := map id | id in rows && rows[id].vm != vm :: rows[id];
        return Ok(());
      }
      var adds, noChange := Compare(vm, request, users);
      if adds.Raised? {
        return Raised;
      }
      ghost var before := rows;
      rows := map id | id in rows && !(rows[id].vm == vm && names[rows[id].user] !in noChange) :: rows[id];
      KeptAreUnchanged(before, names, vm, request, noChange);
      NoClash(before, rows, nextId, adds.value, names, vm, request);
      ghost var kept, next := rows, nextId;
      var ok := BulkCreate(adds.value);
      DeleteThenInsertReplaces(before, kept, next, adds.value, names, vm, request);
      return if ok then Ok(()) else Raised;
    }

    /** `write` asks for write access, otherwise read access is enough. */
    method HasSharedPermOfVm(vm: nat, user: nat, write: bool) returns (has: bool)
      requires Valid() && user in names
      ensures has <==> exists id | id in rows && rows[id].vm == vm && rows[id].user == user ::
                         rows[id].permission == "readwrite" || (!write && rows[id].permission == "readonly")
    {
      if id :| id in rows && rows[id].vm == vm && rows[id].user == user {
        return rows[id].permission == "readwrite" || (!write && rows[id].permission == "readonly");
      }
      return false;
    }
  }
}
