/** The auth store: who is signed in, the loading flag, and the copy of the
    user kept in browser storage under `styleaura_user`. Login performs no
    credential check: one fixed pair yields the administrator, anything else
    a customer made up from the e-mail address. */
module AuthStore {
  import opened Seqs
  import opened Text

  /** The `role` field: 'user' (a customer) or 'admin'. */
  datatype Role = Customer | Admin

  datatype User = User(
    id: string,
    name: string,
    email: string,
    role: Role,
    phone: Option<string>,
    address: Option<string>)

  /** What browser storage holds under `styleaura_user`. An empty string reads
      as nothing stored. */
  datatype Record = Absent | Stored(user: User) | Corrupt

  /** `Partial<User>`: a field that is `None` is absent from the object; a
      present optional field may still hold `undefined` (`Some(None)`). */
  datatype Patch = Patch(
    id: Option<string>,
    name: Option<string>,
    email: Option<string>,
    role: Option<Role>,
    phone: Option<Option<string>>,
    address: Option<Option<string>>)

  datatype AuthError = NoActiveIdentity

  datatype Result<T> = Ok(value: T) | Err(error: AuthError)

  const AdminEmail := "admin@styleaura.com"
  const AdminPassword := "admin123"

  /** The fixed administrator record. */
  function AdminUser(): User {
    User("admin-1", "Admin User", AdminEmail, Admin, Some("9876543210"), Some("StyleAura Office, Mumbai"))
  }

  /** `'user-' + Math.floor(Math.random() * 1000)`, the draw `n` given. */
  function CustomerId(n: nat): (r: string)
    requires n < 1000
    ensures |r| > 5 && r[..5] == "user-"
    ensures forall i :: 5 <= i < |r| ==> IsDigit(r[i])
    ensures DigitsValue(r[5..]) == n
    ensures r != AdminUser().id
  {
    var r := "user-" + NatToString(n);
    assert r[5..] == NatToString(n);
    DigitsValueOfNatToString(n);
    assert r[0] != AdminUser().id[0];
    r
  }

  /** `email.split('@')[0]`: the text before the first `@`, or all of it. */
  function LocalPart(email: string): (r: string)
    ensures '@' !in r
    ensures r <= email
    ensures |r| < |email| ==> email[|r|] == '@'
  {
    if email == [] || email[0] == '@' then [] else [email[0]] + LocalPart(email[1..])
  }

  /** The user `login` produces for the draw `n`. */
  function LoginUser(email: string, password: string, n: nat): (u: User)
    requires n < 1000
    ensures u.role == Admin <==> email == AdminEmail && password == AdminPassword
    ensures u.role == Admin ==> u == AdminUser()
    ensures u.role == Customer ==>
      u.id == "user-" + NatToString(n) && u.name == LocalPart(email) && u.email == email &&
      u.phone == None && u.address == None
  {
    if email == AdminEmail && password == AdminPassword then AdminUser()
    else User(CustomerId(n), LocalPart(email), email, Customer, None, None)
  }

  /** The administrator e-mail with any other password signs in a customer named "admin". */
  lemma WrongAdminPasswordGivesCustomer(password: string, n: nat)
    requires n < 1000 && password != AdminPassword
    ensures LoginUser(AdminEmail, password, n).role == Customer
    ensures LoginUser(AdminEmail, password, n).name == "admin"
  {
    var e := AdminEmail;
    assert e[..5] == "admin" && e[5] == '@';
    LocalPartIsPrefixBeforeAt(e, 5);
  }

  lemma {:induction false} LocalPartIsPrefixBeforeAt(email: string, k: nat)
    requires k < |email| && email[k] == '@' && '@' !in email[..k]
    ensures LocalPart(email) == email[..k]
  {
    if k > 0 {
      assert email[0] in email[..k];
      assert email[1..][..k - 1] == email[1..k];
      assert forall c :: c in email[1..][..k - 1] ==> c in email[..k];
      LocalPartIsPrefixBeforeAt(email[1..], k - 1);
    }
  }

  /** The user `register` produces for the draw `n`: always a customer. */
  function RegisteredUser(name: string, email: string, phone: Option<string>, address: Option<string>, n: nat): (u: User)
    requires n < 1000
    ensures u.role == Customer && u.id == "user-" + NatToString(n)
    ensures u.name == name && u.email == email && u.phone == phone && u.address == address
  {
    User(CustomerId(n), name, email, Customer, phone, address)
  }

  function Pick<T>(o: Option<T>, old_: T): T {
    if o.Some? then o.value else old_
  }

  /** `{ ...user, ...data }`: every field present in the patch overwrites. */
  function Merged(u: User, p: Patch): (r: User)
    ensures p.id.None? ==> r.id == u.id
    ensures p.name.None? ==> r.name == u.name
    ensures p.email.None? ==> r.email == u.email
    ensures p.role.None? ==> r.role == u.role
    ensures p.phone.None? ==> r.phone == u.phone
    ensures p.address.None? ==> r.address == u.address
    ensures p.id.Some? ==> r.id == p.id.value
    ensures p.name.Some? ==> r.name == p.name.value
    ensures p.email.Some? ==> r.email == p.email.value
    ensures p.role.Some? ==> r.role == p.role.value
    ensures p.phone.Some? ==> r.phone == p.phone.value
    ensures p.address.Some? ==> r.address == p.address.value
  {
    User(Pick(p.id, u.id), Pick(p.name, u.name), Pick(p.email, u.email), Pick(p.role, u.role),
         Pick(p.phone, u.phone), Pick(p.address, u.address))
  }

  /** The patch that changes nothing. */
  function NoChange(): Patch {
    Patch(None, None, None, None, None, None)
  }

  /** Merging the empty patch is the identity; merging a patch twice is the
      same as merging it once. */
  lemma MergeLaws(u: User, p: Patch)
    ensures Merged(u, NoChange()) == u
    ensures Merged(Merged(u, p), p) == Merged(u, p)
  {
  }

  class Auth {
    var user: Option<User>
    var isLoading: bool
    var stored: Record

    /** The state before the restore effect runs: nobody, loading. */
    constructor (record: Record)
      ensures user == None && isLoading && stored == record
    {
      user := None;
      isLoading := true;
      stored := record;
    }

    /** The mount effect: adopt a stored user that parses, drop a corrupt
        record, and stop loading in every case. */
    method Restore()
      modifies this
      ensures !isLoading
      ensures old(stored).Stored? ==> user == Some(old(stored).user) && stored == old(stored)
      ensures old(stored).Corrupt? ==> user == old(user) && stored == Absent
      ensures old(stored).Absent? ==> user == old(user) && stored == Absent
    {
      if stored.Stored? {
        user := Some(stored.user);
      } else if stored.Corrupt? {
        stored := Absent;
      }
      isLoading := false;
    }

    method Login(email: string, password: string, n: nat) returns (u: User)
      requires n < 1000
      modifies this
      ensures u == LoginUser(email, password, n)
      ensures user == Some(u) && stored == Stored(u) && !isLoading
    {
      isLoading := true;
      u := LoginUser(email, password, n);
      stored := Stored(u);
      user := Some(u);
      isLoading := false;
    }

    method Register(name: string, email: string, password: string,
                    phone: Option<string>, address: Option<string>, n: nat) returns (u: User)
      requires n < 1000
      modifies this
      ensures u == RegisteredUser(name, email, phone, address, n)
      ensures user == Some(u) && stored == Stored(u) && !isLoading
    {
      isLoading := true;
      u := RegisteredUser(name, email, phone, address, n);
      stored := Stored(u);
      user := Some(u);
      isLoading := false;
    }

    /** Fails when nobody is signed in; otherwise merges, stores and returns. */
    method UpdateProfile(p: Patch) returns (r: Result<User>)
      modifies this
      ensures !isLoading
      ensures old(user).None? ==> r == Err(NoActiveIdentity) && user == None && stored == old(stored)
      ensures old(user).Some? ==>
        r == Ok(Merged(old(user).value, p)) && user == Some(r.value) && stored == Stored(r.value)
    {
      isLoading := true;
      if user.Some? {
        var updated := Merged(user.value, p);
        stored := Stored(updated);
        user := Some(updated);
        isLoading := false;
        return Ok(updated);
      }
      isLoading := false;
      return Err(NoActiveIdentity);
    }

    /** No check is made: the change always succeeds. */
    method UpdatePassword(current: string, new_: string) returns (ok: bool)
      modifies this`isLoading
      ensures ok && !isLoading
    {
      isLoading := true;
      isLoading := false;
      ok := true;
    }

    method Logout()
      modifies this`user, this`stored
      ensures user == None && stored == Absent
    {
      stored := Absent;
      user := None;
    }
  }
}
