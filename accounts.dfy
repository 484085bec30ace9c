/**
 * The account table behind the /api/auth routes. Its storage methods (getUserAccount,
 * getUserAccountByEmail, createUserAccount, updateUserAccount) and its insert schema are
 * called from server/routes.ts but are not part of this model's source files, so the table is
 * kept abstract: a sequence of accounts in which a lookup returns the first match.
 */
module Accounts {
  import opened Wrappers
  import opened Storage

  /** One stored account; `password` holds the hash, never the password itself. */
  datatype UserAccount = UserAccount(
    userId: string, password: string, name: string, email: string,
    bio: string, website: string, avatar: string, lastLogin: Option<nat>)

  /** What the routes send back: the account with its password field removed. */
  datatype AccountView = AccountView(
    userId: string, name: string, email: string, bio: string, website: string, avatar: string,
    lastLogin: Option<nat>)

  /** `const { password: _, ...userResponse } = user`. */
  function PublicView(a: UserAccount): (v: AccountView)
    ensures v.userId == a.userId && v.name == a.name && v.email == a.email && v.lastLogin == a.lastLogin
    ensures v.bio == a.bio && v.website == a.website && v.avatar == a.avatar
  {
    AccountView(a.userId, a.name, a.email, a.bio, a.website, a.avatar, a.lastLogin)
  }

  /** Two accounts whose views agree differ at most in their password. */
  lemma PublicViewForgetsOnlyPassword(a: UserAccount, b: UserAccount)
    requires PublicView(a) == PublicView(b)
    ensures a == b.(password := a.password)
  {
  }

  /** The fields an update may give; a field left undefined is not written. */
  datatype AccountPatch = AccountPatch(
    name: Update<string>, bio: Update<string>, website: Update<string>, avatar: Update<string>,
    lastLogin: Update<Option<nat>>)

  function PatchAccount(a: UserAccount, p: AccountPatch): (b: UserAccount)
    ensures b.userId == a.userId && b.password == a.password && b.email == a.email
  {
    a.(name := p.name.Apply(a.name), bio := p.bio.Apply(a.bio), website := p.website.Apply(a.website),
       avatar := p.avatar.Apply(a.avatar), lastLogin := p.lastLogin.Apply(a.lastLogin))
  }

  function WithAccountId(userId: string): UserAccount -> bool { (a: UserAccount) => a.userId == userId }
  function WithEmail(email: string): UserAccount -> bool { (a: UserAccount) => a.email == email }

  /** updateUserAccount on the table: rewrite the account with that userId, or report none. */
  function UpdateAccounts(rows: seq<UserAccount>, userId: string, p: AccountPatch): (seq<UserAccount>, Option<UserAccount>) {
    match FirstIndex(rows, WithAccountId(userId))
    case None => (rows, None)
    case Some(i) => (rows[i := PatchAccount(rows[i], p)], Some(PatchAccount(rows[i], p)))
  }

  /** An update is read back under the same userId and leaves every other account alone. */
  lemma {:induction false} UpdateAccountsThenGet(rows: seq<UserAccount>, userId: string, p: AccountPatch)
    ensures var (rows', r) := UpdateAccounts(rows, userId, p);
      |rows'| == |rows| &&
      (r.None? <==> First(rows, WithAccountId(userId)).None?) &&
      (r.Some? ==> First(rows', WithAccountId(userId)) == r && r == Some(PatchAccount(First(rows, WithAccountId(userId)).value, p))) &&
      (forall k :: 0 <= k < |rows| && rows[k].userId != userId ==> rows'[k] == rows[k])
  {
    match FirstIndex(rows, WithAccountId(userId))
    case None =>
    case Some(i) =>
      var rows' := rows[i := PatchAccount(rows[i], p)];
      assert forall j :: 0 <= j < i ==> !WithAccountId(userId)(rows'[j]) by {
        forall j | 0 <= j < i ensures !WithAccountId(userId)(rows'[j]) {
          assert rows'[j] == rows[j];
        }
      }
      FirstAt(rows', WithAccountId(userId), i);
  }

  class AccountStore {
    var accounts: seq<UserAccount>

    constructor()
      ensures accounts == []
    {
      accounts := [];
    }

    method GetUserAccount(userId: string) returns (a: Option<UserAccount>)
      ensures a == First(accounts, WithAccountId(userId))
    {
      a := First(accounts, WithAccountId(userId));
    }

    method GetUserAccountByEmail(email: string) returns (a: Option<UserAccount>)
      ensures a == First(accounts, WithEmail(email))
    {
      a := First(accounts, WithEmail(email));
    }

    method CreateUserAccount(a: UserAccount) returns (r: UserAccount)
      modifies this
      ensures accounts == old(accounts) + [a] && r == a
    {
      accounts := accounts + [a];
      r := a;
    }

    method UpdateUserAccount(userId: string, p: AccountPatch) returns (r: Option<UserAccount>)
      modifies this
      ensures (accounts, r) == UpdateAccounts(old(accounts), userId, p)
    {
      var (rows, updated) := UpdateAccounts(accounts, userId, p);
      accounts := rows;
      r := updated;
    }
  }
}
