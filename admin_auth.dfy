/**
 * The admin gate of `lib/admin-auth.ts`: one fixed credential pair, and a
 * flag under one key of the browser's local storage, modelled as a map.
 */
module AdminAuth {
  const AdminUsername := "ANOXADMIN"
  const AdminPassword := "anoxaipim"
  const AuthKey := "anox_admin_auth"
  const Authenticated := "authenticated"

  /** The browser's local storage, and whether the code runs where a window exists. */
  class Session {
    var storage: map<string, string>
    const hasWindow: bool

    constructor (hasWindow: bool, storage: map<string, string>)
      ensures this.hasWindow == hasWindow && this.storage == storage
    {
      this.hasWindow := hasWindow;
      this.storage := storage;
    }

    /** `isAuthenticated`: only in a window, and only when the key holds exactly "authenticated". */
    function IsAuthenticated(): (r: bool)
      reads this
      ensures r ==> hasWindow && AuthKey in storage
      ensures !hasWindow ==> !r
      ensures hasWindow && AuthKey in storage ==> (r <==> storage[AuthKey] == Authenticated)
    {
      hasWindow && AuthKey in storage && storage[AuthKey] == Authenticated
    }

    /** `login`: only the fixed pair succeeds, and only success writes the flag. */
    method Login(username: string, password: string) returns (ok: bool)
      modifies this`storage
      ensures ok <==> username == AdminUsername && password == AdminPassword
      ensures ok ==> storage == old(storage)[AuthKey := Authenticated]
      ensures !ok ==> storage == old(storage)
      ensures ok && hasWindow ==> IsAuthenticated()
    {
      if username == AdminUsername && password == AdminPassword {
        storage := storage[AuthKey := Authenticated];
        return true;
      }
      return false;
    }

    /** `logout`: removes the flag and nothing else. */
    method Logout()
      modifies this`storage
      ensures storage == old(storage) - {AuthKey}
      ensures !IsAuthenticated()
    {
      storage := storage - {AuthKey};
    }
  }
}
