/** Credential matching shared by the client-side store (services/mockDb.ts)
    and the server variant (server.js): emails compare case-insensitively,
    passwords exactly. */
module Accounts {
  import opened Types

  function LowerChar(c: char): char
  {
    if 'A' <= c <= 'Z' then (c as int + 32) as char else c
  }

  /** `toLowerCase`, on the ASCII letters. */
  function Lower(s: string): string
  {
    seq(|s|, i requires 0 <= i < |s| => LowerChar(s[i]))
  }

  predicate SameEmail(a: string, b: string)
  {
    Lower(a) == Lower(b)
  }

  /** Lower-casing only folds case: it keeps the length and changes no
      character except an upper-case letter into its lower-case twin,
      and lower-casing twice is lower-casing once. */
  lemma LowerFoldsOnlyCase(s: string)
    ensures |Lower(s)| == |s|
    ensures forall i :: 0 <= i < |s| && !('A' <= s[i] <= 'Z') ==> Lower(s)[i] == s[i]
    ensures Lower(Lower(s)) == Lower(s)
  {
  }

  /** Two addresses that differ only in letter case are the same email. */
  lemma CaseOnlyDifferenceIsSameEmail(a: string, b: string)
    requires |a| == |b|
    requires forall i :: 0 <= i < |a| ==> LowerChar(a[i]) == LowerChar(b[i])
    ensures SameEmail(a, b)
  {
  }

  /** `users.find(u => u.email.toLowerCase() === email.toLowerCase() && u.password === password)`. */
  function CredentialsMatch(users: seq<UserRecord>, email: string, password: string): (r: Option<nat>)
    ensures r.Some? ==>
      r.value < |users| && SameEmail(users[r.value].email, email) && users[r.value].password == password
    ensures r.None? <==> forall k :: 0 <= k < |users| ==>
      !(SameEmail(users[k].email, email) && users[k].password == password)
  {
    FindIndex(users, (u: UserRecord) => SameEmail(u.email, email) && u.password == password)
  }

  /** `users.find(u => u.email.toLowerCase() === email.toLowerCase())` found a user. */
  predicate EmailTaken(users: seq<UserRecord>, email: string)
  {
    exists k :: 0 <= k < |users| && SameEmail(users[k].email, email)
  }

  /** No two stored users share an email, up to letter case. */
  ghost predicate UniqueEmails(users: seq<UserRecord>)
  {
    forall i, j :: 0 <= i < |users| && 0 <= j < |users| && i != j ==>
      !SameEmail(users[i].email, users[j].email)
  }

  /** Signup's duplicate check keeps emails unique: appending a user whose
      email is not taken leaves no two users with the same email. */
  lemma {:induction false} AppendFreshEmailKeepsUnique(users: seq<UserRecord>, u: UserRecord)
    requires UniqueEmails(users)
    requires !EmailTaken(users, u.email)
    ensures UniqueEmails(users + [u])
  {
    var all := users + [u];
    forall i, j | 0 <= i < |all| && 0 <= j < |all| && i != j
      ensures !SameEmail(all[i].email, all[j].email)
    {
      if i == |users| {
        assert !SameEmail(users[j].email, u.email);
      } else if j == |users| {
        assert !SameEmail(users[i].email, u.email);
      }
    }
  }

  /** With unique emails a login can only ever find one account: no user
      other than the one matched has the given email. */
  lemma LoginMatchIsTheOnlyAccount(users: seq<UserRecord>, email: string, password: string)
    requires UniqueEmails(users)
    requires CredentialsMatch(users, email, password).Some?
    ensures forall k :: 0 <= k < |users| && k != CredentialsMatch(users, email, password).value ==>
      !SameEmail(users[k].email, email)
  {
    var i := CredentialsMatch(users, email, password).value;
    forall k | 0 <= k < |users| && k != i
      ensures !SameEmail(users[k].email, email)
    {
      assert !SameEmail(users[k].email, users[i].email);
    }
  }

  /** A login that succeeds names a taken email, so signing up again with
      it (in any letter case) is refused. */
  lemma LoginMatchMeansEmailTaken(users: seq<UserRecord>, email: string, password: string, other: string)
    requires CredentialsMatch(users, email, password).Some?
    requires SameEmail(other, email)
    ensures EmailTaken(users, other)
  {
    var i := CredentialsMatch(users, email, password).value;
    assert SameEmail(users[i].email, other);
  }
}
