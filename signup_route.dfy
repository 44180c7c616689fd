/** `api/auth/signup`: registers an admin account. Hashing, token signing
  * and mail sending are outside the model: the hash is a parameter and the
  * other two can only fail. */
module SignupRoute {
  import opened Wrappers
  import opened Text
  import opened Records
  import opened Http
  import opened Collections
  import opened Database

  datatype Body = Body(email: Option<string>, password: Option<string>)

  /** `email.slice(0, email.indexOf('@')).replace('.', ' ')`. */
  function DisplayName(email: string): string
  {
    ReplaceFirst(SliceTo(email, IndexOf(email, '@')), '.', ' ')
  }

  /** With an '@', the name is the part before the first '@' with only its
    * first '.' turned into a space. */
  lemma NameBeforeAt(email: string)
    requires '@' in email
    ensures var k := IndexOf(email, '@');
      && |DisplayName(email)| == k
      && (forall i :: 0 <= i < k ==>
            DisplayName(email)[i] == (if '.' in email[..k] && i == IndexOf(email[..k], '.') then ' ' else email[i]))
      && '@' !in DisplayName(email)
  {
    var k := IndexOf(email, '@');
    var front := email[..k];
    assert SliceTo(email, k) == front;
    ReplaceFirstPointwise(front, '.', ' ');
  }

  /** Without an '@', `indexOf` gives -1 and the slice loses the last
    * character. */
  lemma NoAtDropsLastChar(email: string)
    requires '@' !in email && |email| > 0
    ensures DisplayName(email) == ReplaceFirst(email[..|email| - 1], '.', ' ')
    ensures |DisplayName(email)| == |email| - 1
  {
  }

  /** The answer before the `try`, if any: the body and its two fields, the
    * lookup by email (outside the `try`) and then the password length. */
  function Rejection(body: Option<Body>, admins: seq<Admin>, faults: Faults): (r: Option<Response<()>>)
    ensures body.None? ==> r == Some(Response(400, Error("Request data/body is missing")))
    ensures body.Some? && !Truthy(body.value.email) ==> r == Some(Response(400, Error("Email is missing")))
    ensures body.Some? && Truthy(body.value.email) && !Truthy(body.value.password) ==>
      r == Some(Response(400, Error("Password is missing")))
    ensures body.Some? && Truthy(body.value.email) && Truthy(body.value.password) && Find in faults ==>
      r == Some(Response(500, Unhandled(faults[Find])))
    ensures body.Some? && Truthy(body.value.email) && Truthy(body.value.password) && Find !in faults ==>
      var email := body.value.email.value;
      var n := |body.value.password.value|;
      && ((exists i :: 0 <= i < |admins| && admins[i].email == email) ==> r == Some(Response(409, Error("Admin already exists"))))
      && ((forall i :: 0 <= i < |admins| ==> admins[i].email != email) ==>
            && (n < 6 ==> r == Some(Response(409, Error("Password should be at least 6 characters long"))))
            && (n > 20 ==> r == Some(Response(409, Error("Password should be not be more than 20 characters long"))))
            && (6 <= n <= 20 <==> r.None?))
    ensures r.None? ==> body.Some? && Truthy(body.value.email) && Truthy(body.value.password) && Find !in faults
  {
    if body.None? then Some(Response(400, Error("Request data/body is missing")))
    else if !Truthy(body.value.email) then Some(Response(400, Error("Email is missing")))
    else if !Truthy(body.value.password) then Some(Response(400, Error("Password is missing")))
    else if Find in faults then Some(Response(500, Unhandled(faults[Find])))
    else if FindFirst(admins, (a: Admin) => a.email == body.value.email.value).Some? then
      Some(Response(409, Error("Admin already exists")))
    else if |body.value.password.value| < 6 then Some(Response(409, Error("Password should be at least 6 characters long")))
    else if |body.value.password.value| > 20 then
      Some(Response(409, Error("Password should be not be more than 20 characters long")))
    else None
  }

  /** The created account; `emailMatches` stands for the schema's email
    * pattern, which is not part of this model. */
  function NewAdmin(id: Id, email: string, hashed: string, emailMatches: bool, loadTime: nat): (r: Result<Admin>)
    ensures r.Thrown? <==> !emailMatches
    ensures r.Thrown? ==> r.error == "admins validation failed: email: Invalid email"
    ensures r.Ok? ==>
      && r.value.id == id && r.value.name == DisplayName(email) && r.value.email == email
      && r.value.password == hashed && r.value.image == "" && !r.value.emailVerified
      && r.value.created == loadTime && r.value.updated == loadTime
  {
    if !emailMatches then Thrown("admins validation failed: email: Invalid email")
    else Ok(Admin(id, DisplayName(email), email, hashed, "", false, loadTime, loadTime))
  }

  /** POST. The create is not undone when signing the token or sending the
    * mail fails afterwards: the account exists and the answer is 503. */
  method Post(st: Store, body: Option<Body>, hashed: string, emailMatches: bool, faults: Faults) returns (r: Response<()>)
    modifies st
    ensures st.objects == old(st.objects)
    ensures Rejection(body, old(st.admins), faults).Some? ==>
      r == Rejection(body, old(st.admins), faults).value && st.Docs() == old(st.Docs())
    ensures Rejection(body, old(st.admins), faults).None? ==>
      var created := NewAdmin(old(st.nextId), body.value.email.value, hashed, emailMatches, st.loadTime);
      if created.Thrown? then
        r == Response(503, Error(created.error)) && st.Docs() == old(st.Docs())
      else if Create in faults then
        r == Response(503, Error(faults[Create])) && st.Docs() == old(st.Docs())
      else
        && st.Docs() == old(st.Docs()).(admins := old(st.admins) + [created.value])
        && r == (if SignToken in faults then Response(503, Error(faults[SignToken]))
                 else if SendMail in faults then Response(503, Error(faults[SendMail]))
                 else Response(201, Success))
  {
    var rejection := Rejection(body, st.admins, faults);
    if rejection.Some? {
      return rejection.value;
    }
    var id := st.FreshId();
    var created := NewAdmin(id, body.value.email.value, hashed, emailMatches, st.loadTime);
    if created.Thrown? {
      return Response(503, Error(created.error));
    }
    if Create in faults {
      return Response(503, Error(faults[Create]));
    }
    st.admins := st.admins + [created.value];
    if SignToken in faults {
      return Response(503, Error(faults[SignToken]));
    }
    if SendMail in faults {
      return Response(503, Error(faults[SendMail]));
    }
    return Response(201, Success);
  }

  /** GET answers 405 with no login check. */
  function Get(): (r: Response<()>)
    ensures r == Response(405, Error("GET Method not supported"))
  {
    Response(405, Error("GET Method not supported"))
  }
}
