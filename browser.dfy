/** The browser state the components share: `localStorage` and navigation. */
module Browser {
  import opened Wrappers
  import opened Accounts

  /** A value kept in `localStorage`. `UserJson(u)` is the text `JSON.stringify(u)`;
      `Text(s)` is any other string, standing for text that `JSON.parse` rejects. */
  datatype Stored = Text(text: string) | UserJson(user: User)

  /** The text of a user record as `JSON.stringify` lays it out (string escaping not modelled). */
  function UserJsonText(u: User): (s: string)
    ensures |s| > 0 && s[0] == '{'
  {
    "{\"id\":\"" + u.id + "\",\"email\":\"" + u.email + "\",\"username\":\"" + u.username
    + "\",\"full_name\":\"" + u.fullName + "\""
    + (match u.phoneNumber case Some(p) => ",\"phone_number\":\"" + p + "\"" case None => "")
    + ",\"role\":\"" + RoleName(u.role) + "\",\"is_verified\":" + (if u.isVerified then "true" else "false") + "}"
  }

  /** The string a stored value reads back as. */
  function AsString(v: Stored): string {
    match v
    case Text(s) => s
    case UserJson(u) => UserJsonText(u)
  }

  /** `localStorage.getItem(key)`: the stored string, or null. */
  function GetItem(storage: map<string, Stored>, key: string): (r: Option<string>)
    ensures r.Some? <==> key in storage
    ensures key in storage ==> r.value == AsString(storage[key])
  {
    if key in storage then Some(AsString(storage[key])) else None
  }

  /** `!!localStorage.getItem(key)`: present and not the empty string. */
  predicate Truthy(item: Option<string>) {
    item.Some? && item.value != ""
  }

  /** The window: its `localStorage`, the routes given to the client router
      (`router.push`) and the locations assigned to `window.location.href`. */
  class Window {
    var localStorage: map<string, Stored>
    var pushes: seq<string>
    var hrefs: seq<string>

    constructor (storage: map<string, Stored>)
      ensures localStorage == storage && pushes == [] && hrefs == []
    {
      localStorage := storage;
      pushes := [];
      hrefs := [];
    }
  }
}
