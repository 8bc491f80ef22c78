/**
 * The browser state the client code touches directly: the `token` entry of
 * `localStorage` and `window.location`.
 */
module Browser {
  import opened Wrappers

  class Window {
    /** `localStorage.getItem("token")`: `None` stands for `null`. */
    var storedToken: Option<string>
    /** `window.location.pathname` */
    var pathname: string
    /** Every value assigned to `window.location.href`, oldest first. */
    var hrefAssignments: seq<string>

    constructor(token: Option<string>, path: string)
      ensures storedToken == token && pathname == path && hrefAssignments == []
    {
      storedToken := token;
      pathname := path;
      hrefAssignments := [];
    }

    /** `localStorage.setItem("token", value)` */
    method StoreToken(value: string)
      modifies this
      ensures storedToken == Some(value)
      ensures pathname == old(pathname) && hrefAssignments == old(hrefAssignments)
    {
      storedToken := Some(value);
    }

    /** `localStorage.removeItem("token")` */
    method RemoveToken()
      modifies this
      ensures storedToken == None
      ensures pathname == old(pathname) && hrefAssignments == old(hrefAssignments)
    {
      storedToken := None;
    }

    /** `window.location.href = target` */
    method AssignHref(target: string)
      modifies this
      ensures hrefAssignments == old(hrefAssignments) + [target]
      ensures storedToken == old(storedToken) && pathname == old(pathname)
    {
      hrefAssignments := hrefAssignments + [target];
    }
  }
}
