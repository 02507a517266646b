/**
 * The users table as the handlers see it: `user.findUnique` by email or by
 * id, and `user.create`. Ids and emails are unique in the table.
 */
module UserTable {
  import opened Wrappers
  import opened Http

  /** A stored user; `password` holds the bcrypt hash, `updatedAt` a timestamp. */
  datatype User = User(id: string, fullName: string, email: string, password: string, updatedAt: int)

  predicate UniqueEmails(users: seq<User>)
  {
    forall i, j :: 0 <= i < j < |users| ==> users[i].email != users[j].email
  }

  predicate UniqueIds(users: seq<User>)
  {
    forall i, j :: 0 <= i < j < |users| ==> users[i].id != users[j].id
  }

  /** `findUnique({ where: { email } })`. */
  function FindByEmail(users: seq<User>, email: string): (r: Option<User>)
    ensures r.Some? <==> exists i :: 0 <= i < |users| && users[i].email == email
    ensures r.Some? ==> r.value in users && r.value.email == email
  {
    if users == [] then None
    else if users[0].email == email then Some(users[0])
    else FindByEmail(users[1..], email)
  }

  /** `findUnique({ where: { id } })`. */
  function FindById(users: seq<User>, id: string): (r: Option<User>)
    ensures r.Some? <==> exists i :: 0 <= i < |users| && users[i].id == id
    ensures r.Some? ==> r.value in users && r.value.id == id
  {
    if users == [] then None
    else if users[0].id == id then Some(users[0])
    else FindById(users[1..], id)
  }

  /** With unique ids, looking up a user just appended finds that user. */
  lemma {:induction false} FindAppended(users: seq<User>, u: User)
    requires UniqueIds(users + [u])
    ensures FindById(users + [u], u.id) == Some(u)
  {
    if users != [] {
      var all := users + [u];
      assert all[0] != u by {
        assert all[|all| - 1] == u;
      }
      assert all[1..] == users[1..] + [u];
      assert UniqueIds(users[1..] + [u]) by {
        forall i, j | 0 <= i < j < |users[1..] + [u]|
          ensures (users[1..] + [u])[i].id != (users[1..] + [u])[j].id
        {
          assert (users[1..] + [u])[i] == all[i + 1] && (users[1..] + [u])[j] == all[j + 1];
        }
      }
      FindAppended(users[1..], u);
    }
  }

  /**
   * The outcome of `user.create(u)`: a failure of the database itself, a
   * violation of the id or email key, or the new row.
   */
  function CreateResult(users: seq<User>, u: User, fault: Option<Exception>): (r: Result<User, Exception>)
    ensures r.Ok? <==> fault.None? && FindById(users, u.id).None? && FindByEmail(users, u.email).None?
    ensures r.Ok? ==> r.value == u
  {
    if fault.Some? then Err(fault.value)
    else if FindById(users, u.id).Some? || FindByEmail(users, u.email).Some? then Err(Error(UniqueViolationMessage))
    else Ok(u)
  }

  const UniqueViolationMessage: string := "Unique constraint failed on the fields: (`id`) or (`email`)"

  lemma CreateKeepsKeysUnique(users: seq<User>, u: User, fault: Option<Exception>)
    requires UniqueEmails(users) && UniqueIds(users)
    requires CreateResult(users, u, fault).Ok?
    ensures UniqueEmails(users + [u]) && UniqueIds(users + [u])
  {
    var all := users + [u];
    forall i, j | 0 <= i < j < |all| ensures all[i].email != all[j].email && all[i].id != all[j].id {
      if j == |users| {
        assert all[i] == users[i];
      }
    }
  }

  class UserStore {
    var users: seq<User>

    ghost predicate Valid()
      reads this
    {
      UniqueEmails(users) && UniqueIds(users)
    }

    constructor ()
      ensures Valid() && users == []
    {
      users := [];
    }

    /** `prisma.user.create`: one row more on success, the table unchanged on any error. */
    method Create(u: User, fault: Option<Exception>) returns (r: Result<User, Exception>)
      requires Valid()
      modifies this
      ensures Valid()
      ensures r == CreateResult(old(users), u, fault)
      ensures users == if r.Ok? then old(users) + [u] else old(users)
    {
      r := CreateResult(users, u, fault);
      if r.Ok? {
        CreateKeepsKeysUnique(users, u, fault);
        users := users + [u];
      }
    }
  }
}
