/**
 * The mock authentication provider: the signed-in user, the loading flag
 * and the `wehearu_user` entry of local storage, which every operation
 * keeps equal to the user. `Math.random()` key suffixes are inputs.
 */
module AuthContext {
  import opened Opt

  datatype Role = Admin | Member

  datatype User = User(id: string, email: string, name: string, role: Role, apiKey: Option<string>)

  const ApiKeyPrefix: string := "whu_"

  /** `'whu_' + suffix`: the prefix followed by the random suffix, which can be read back. */
  function ApiKey(suffix: string): (key: string)
    ensures |key| == |ApiKeyPrefix| + |suffix|
    ensures key[..|ApiKeyPrefix|] == ApiKeyPrefix && key[|ApiKeyPrefix|..] == suffix
  {
    ApiKeyPrefix + suffix
  }

  /** Keys made from different suffixes differ. */
  lemma ApiKeyInjective(s1: string, s2: string)
    requires ApiKey(s1) == ApiKey(s2)
    ensures s1 == s2
  {
    assert s1 == ApiKey(s1)[|ApiKeyPrefix|..];
  }

  /** The user `login` creates: the demo administrator with a fresh key. */
  function DemoUser(email: string, suffix: string): User
  {
    User("1", email, "Demo User", Admin, Some(ApiKey(suffix)))
  }

  /** The user `signup` creates: a plain member without a key. */
  function NewMember(email: string, name: string): User
  {
    User("1", email, name, Member, None)
  }

  class AuthProvider {
    var user: Option<User>
    var loading: bool
    /** The `wehearu_user` entry of local storage. */
    var stored: Option<User>

    /** The stored entry mirrors the user. */
    ghost predicate Synced()
      reads this
    {
      stored == user
    }

    /** `isAuthenticated: !!user`. */
    predicate IsAuthenticated()
      reads this
      ensures IsAuthenticated() <==> user != None
    {
      user.Some?
    }

    /** The provider before its mount effect has run: no user, loading. */
    constructor (storage: Option<User>)
      ensures user == None && loading && stored == storage
    {
      user := None;
      loading := true;
      stored := storage;
    }

    /** The mount effect: restore the stored user, if any, then stop loading. */
    method Restore()
      requires user == None
      modifies this`user, this`loading
      ensures user == stored && !loading && Synced()
    {
      if stored.Some? {
        user := stored;
      }
      loading := false;
    }

    /** `login`: any email and password give the demo administrator. */
    method Login(email: string, password: string, suffix: string)
      modifies this
      ensures user == Some(DemoUser(email, suffix)) && Synced() && !loading
      ensures IsAuthenticated() && user.value.apiKey == Some(ApiKey(suffix))
    {
      loading := true;
      var u := DemoUser(email, suffix);
      user := Some(u);
      stored := Some(u);
      loading := false;
    }

    /** `signup`: a member with the given email and name and no key. */
    method Signup(email: string, password: string, name: string)
      modifies this
      ensures user == Some(NewMember(email, name)) && Synced() && !loading
      ensures IsAuthenticated() && user.value.apiKey == None
    {
      loading := true;
      var u := NewMember(email, name);
      user := Some(u);
      stored := Some(u);
      loading := false;
    }

    /** `logout`: forget the user and the stored entry. */
    method Logout()
      modifies this`user, this`stored
      ensures user == None && Synced() && !IsAuthenticated()
    {
      user := None;
      stored := None;
    }

    /** `generateApiKey`: a new key, recorded on the signed-in user if there is one. */
    method GenerateApiKey(suffix: string) returns (key: string)
      modifies this`user, this`stored
      ensures key == ApiKey(suffix)
      ensures old(user).Some? ==> user == Some(old(user).value.(apiKey := Some(key))) && Synced()
      ensures old(user).None? ==> user == old(user) && stored == old(stored)
      ensures old(Synced()) ==> Synced()
    {
      key := ApiKey(suffix);
      if user.Some? {
        var updated := user.value.(apiKey := Some(key));
        user := Some(updated);
        stored := Some(updated);
      }
    }
  }
}
