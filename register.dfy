/**
 * The registration endpoint `POST /api/register` over the `"User"` table: it rejects a
 * request without an email or a password, rejects an email already present, and otherwise
 * inserts one row holding the name, the email and the hash of the password.
 */
module Register {
  import opened Wrappers
  import opened JsString

  /** A row of `"User"`: `name` and `emailVerified` may be NULL. */
  datatype UserRow = UserRow(id: string, name: Option<string>, email: string, password: string, emailVerified: Option<string>)

  datatype Body = ErrorBody(error: string) | SuccessBody(success: bool)

  /** `NextResponse.json(body, { status })`; the status defaults to 200. */
  datatype JsonResponse = JsonResponse(status: nat, body: Body)

  const MissingFields: JsonResponse := JsonResponse(400, ErrorBody("Missing fields"))

  const UserExists: JsonResponse := JsonResponse(409, ErrorBody("User already exists"))

  const Registered: JsonResponse := JsonResponse(200, SuccessBody(true))

  predicate HasEmail(rows: seq<UserRow>, email: string) {
    exists i :: 0 <= i < |rows| && rows[i].email == email
  }

  /** No two rows share an email. */
  ghost predicate EmailsUnique(rows: seq<UserRow>) {
    forall i, j :: 0 <= i < j < |rows| ==> rows[i].email != rows[j].email
  }

  /** The result of `SELECT id FROM "User" WHERE email = $1`, in table order. */
  function IdsWithEmail(rows: seq<UserRow>, email: string): (r: seq<string>)
    ensures |r| <= |rows|
    ensures forall i :: 0 <= i < |rows| && rows[i].email == email ==> rows[i].id in r
    ensures forall x :: x in r ==> exists i :: 0 <= i < |rows| && rows[i].email == email && rows[i].id == x
  {
    if rows == [] then []
    else
      var last := rows[|rows| - 1];
      IdsWithEmail(rows[..|rows| - 1], email) + (if last.email == email then [last.id] else [])
  }

  /** The lookup keeps table order: looking up in a concatenation concatenates the lookups. */
  lemma {:induction false} IdsWithEmailAppend(a: seq<UserRow>, b: seq<UserRow>, email: string)
    ensures IdsWithEmail(a + b, email) == IdsWithEmail(a, email) + IdsWithEmail(b, email)
  {
    if b == [] {
      assert a + b == a;
    } else {
      var init := b[..|b| - 1];
      assert (a + b)[..|a + b| - 1] == a + init;
      IdsWithEmailAppend(a, init, email);
    }
  }

  /** While emails are unique, the lookup returns at most one id. */
  lemma {:induction false} IdsWithEmailAtMostOne(rows: seq<UserRow>, email: string)
    requires EmailsUnique(rows)
    ensures |IdsWithEmail(rows, email)| <= 1
  {
    if rows != [] {
      var init := rows[..|rows| - 1];
      assert EmailsUnique(init) by {
        forall i, j | 0 <= i < j < |init| ensures init[i].email != init[j].email {
          assert init[i] == rows[i] && init[j] == rows[j];
        }
      }
      IdsWithEmailAtMostOne(init, email);
      if rows[|rows| - 1].email == email {
        forall i | 0 <= i < |init| ensures init[i].email != email {
          assert init[i] == rows[i];
        }
        IdsWithEmailEmptyIff(init, email);
      }
    }
  }

  /** The lookup finds a row exactly when a row with that email exists. */
  lemma {:induction false} IdsWithEmailEmptyIff(rows: seq<UserRow>, email: string)
    ensures IdsWithEmail(rows, email) == [] <==> !HasEmail(rows, email)
  {
    if rows != [] {
      var init := rows[..|rows| - 1];
      IdsWithEmailEmptyIff(init, email);
      if HasEmail(init, email) {
        var i :| 0 <= i < |init| && init[i].email == email;
        assert rows[i].email == email;
      }
      if HasEmail(rows, email) && rows[|rows| - 1].email != email {
        var i :| 0 <= i < |rows| && rows[i].email == email;
        assert init[i].email == email;
      }
    }
  }

  /** Appending a row whose email is new keeps emails unique. */
  lemma AppendNewEmailKeepsUnique(rows: seq<UserRow>, row: UserRow)
    requires EmailsUnique(rows) && !HasEmail(rows, row.email)
    ensures EmailsUnique(rows + [row])
  {
    var all := rows + [row];
    forall i, j | 0 <= i < j < |all| ensures all[i].email != all[j].email {
      if j == |rows| {
        assert all[i] == rows[i];
      }
    }
  }

  class UserTable {
    var rows: seq<UserRow>

    ghost predicate Valid()
      reads this
    {
      EmailsUnique(rows)
    }

    constructor ()
      ensures rows == [] && Valid()
    {
      rows := [];
    }

    /** `SELECT id FROM "User" WHERE email = $1`. */
    method SelectIdsByEmail(email: string) returns (ids: seq<string>)
      ensures ids == IdsWithEmail(rows, email)
      ensures |ids| > 0 <==> HasEmail(rows, email)
    {
      ids := [];
      var i := 0;
      while i < |rows|
        invariant 0 <= i <= |rows|
        invariant ids == IdsWithEmail(rows[..i], email)
      {
        assert rows[..i + 1][..i] == rows[..i];
        if rows[i].email == email {
          ids := ids + [rows[i].id];
        }
        i := i + 1;
      }
      assert rows[..|rows|] == rows;
      IdsWithEmailEmptyIff(rows, email);
    }

    /** `INSERT INTO "User" ... VALUES (...)`. */
    method Insert(row: UserRow)
      modifies this
      ensures rows == old(rows) + [row]
    {
      rows := rows + [row];
    }

    /**
     * The `POST` handler for the body `{ name, email, password }` (each field absent or a
     * string). `hashPassword` is the one-way password hash and `newId` the value of
     * `gen_random_uuid()`. The name is neither checked nor required.
     */
    method Post(name: Option<string>, email: Option<string>, password: Option<string>,
                hashPassword: string -> string, newId: string) returns (resp: JsonResponse)
      requires Valid()
      modifies this
      ensures Valid()
      ensures !Truthy(email) || !Truthy(password) ==> resp == MissingFields && rows == old(rows)
      ensures Truthy(email) && Truthy(password) && HasEmail(old(rows), email.value) ==>
                resp == UserExists && rows == old(rows)
      ensures Truthy(email) && Truthy(password) && !HasEmail(old(rows), email.value) ==>
                resp == Registered
                && rows == old(rows) + [UserRow(newId, name, email.value, hashPassword(password.value), None)]
    {
      if !Truthy(email) || !Truthy(password) {
        return MissingFields;
      }
      var existing := SelectIdsByEmail(email.value);
      if |existing| > 0 {
        return UserExists;
      }
      var hashed := hashPassword(password.value);
      AppendNewEmailKeepsUnique(rows, UserRow(newId, name, email.value, hashed, None));
      Insert(UserRow(newId, name, email.value, hashed, None));
      return Registered;
    }
  }
}
