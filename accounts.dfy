/** A fixed user directory and its credential lookup, shared by the main
  * server's login and the auth router's login. */
module Accounts {
  import opened Options

  datatype User = User(id: nat, email: string, password: string)

  /** `u.email === email && u.password === password`: exact equality on both
    * fields; an absent field never matches. */
  predicate Matches(u: User, email: Option<string>, password: Option<string>)
  {
    email == Some(u.email) && password == Some(u.password)
  }

  /** `users.find(...)`: the first record that matches both fields. */
  function Find(users: seq<User>, email: Option<string>, password: Option<string>): (found: Option<User>)
    ensures found.Some? <==> exists i :: 0 <= i < |users| && Matches(users[i], email, password)
    ensures found.Some? ==>
      exists i :: 0 <= i < |users| && users[i] == found.value && Matches(found.value, email, password) &&
        forall j :: 0 <= j < i ==> !Matches(users[j], email, password)
  {
    if users == [] then None
    else if Matches(users[0], email, password) then Some(users[0])
    else
      var found := Find(users[1..], email, password);
      assert forall i :: 1 <= i < |users| ==> users[i] == users[1..][i - 1];
      found
  }
}
