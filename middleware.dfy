/** The session middleware (src/lib/supabase/middleware.ts): where a
    request goes, from whether Supabase is configured, whether a user is
    signed in and the pathname; and how the cookie callback copies the
    cookies to set onto the request and the response. The user lookup is
    a parameter; cookie options are left out. */
module Middleware {
  import opened Common

  const LoginPath := "/login"
  const HomePath := "/muhasebe"

  datatype Decision = PassThrough | RedirectTo(path: string)

  /** `updateSession`'s decision: unconfigured passes through; no user off
      the login pages goes to "/login"; a user on them goes to "/muhasebe";
      anything else passes through. The root path is not exempt. */
  function Decide(supabaseUrl: string, anonKey: string, hasUser: bool, pathname: string): (d: Decision)
    ensures supabaseUrl == "" || anonKey == "" ==> d == PassThrough
    ensures supabaseUrl != "" && anonKey != "" && !hasUser && !StartsWith(pathname, LoginPath) ==> d == RedirectTo(LoginPath)
    ensures supabaseUrl != "" && anonKey != "" && hasUser && StartsWith(pathname, LoginPath) ==> d == RedirectTo(HomePath)
    ensures d == PassThrough <==>
      supabaseUrl == "" || anonKey == "" || (hasUser != StartsWith(pathname, LoginPath))
  {
    if supabaseUrl == "" || anonKey == "" then PassThrough
    else
      var isAuthPage := StartsWith(pathname, LoginPath);
      if !hasUser && !isAuthPage then RedirectTo(LoginPath)
      else if hasUser && isAuthPage then RedirectTo(HomePath)
      else PassThrough
  }

  /** Once configured, a redirect never points at the page it came from,
      so following it settles after at most one more step. */
  lemma RedirectSettles(supabaseUrl: string, anonKey: string, hasUser: bool, pathname: string)
    requires Decide(supabaseUrl, anonKey, hasUser, pathname).RedirectTo?
    ensures Decide(supabaseUrl, anonKey, hasUser, Decide(supabaseUrl, anonKey, hasUser, pathname).path) == PassThrough
  {
    assert StartsWith(LoginPath, LoginPath);
    assert !StartsWith(HomePath, LoginPath) by {
      assert HomePath[1] != LoginPath[1];
    }
  }

  /** "/" and "/loginx" are not treated specially: the first needs a user,
      the second counts as a login page. */
  lemma RootAndLoginPrefix(url: string, key: string)
    requires url != "" && key != ""
    ensures Decide(url, key, false, "/") == RedirectTo(LoginPath)
    ensures Decide(url, key, true, "/loginx") == RedirectTo(HomePath)
    ensures Decide(url, key, false, "/loginx") == PassThrough
  {
    assert "/loginx"[..6] == LoginPath;
  }

  /** A cookie to set: its name and value. */
  datatype Cookie = Cookie(name: string, value: string)

  /** Setting the cookies one after another on a jar. */
  function Applied(jar: map<string, string>, cookies: seq<Cookie>): (r: map<string, string>)
    ensures r.Keys == jar.Keys + (set c | c in cookies :: c.name)
  {
    if cookies == [] then jar
    else
      var last := cookies[|cookies| - 1];
      Applied(jar, cookies[..|cookies| - 1])[last.name := last.value]
  }

  /** Entry `k` is the last one setting `name`. */
  predicate LastFor(cookies: seq<Cookie>, k: int, name: string) {
    0 <= k < |cookies| && cookies[k].name == name && forall j :: k < j < |cookies| ==> cookies[j].name != name
  }

  /** After setting, a cookie has the value of its name's last entry; a
      name not being set keeps its value. */
  lemma {:induction false} AppliedLastWins(jar: map<string, string>, cookies: seq<Cookie>, name: string)
    ensures (forall c :: c in cookies ==> c.name != name) ==>
      name in jar ==> name in Applied(jar, cookies) && Applied(jar, cookies)[name] == jar[name]
    ensures forall k :: LastFor(cookies, k, name) ==> Applied(jar, cookies)[name] == cookies[k].value
  {
    if cookies != [] {
      var init := cookies[..|cookies| - 1];
      AppliedLastWins(jar, init, name);
      forall c | c in init ensures c in cookies {
      }
      forall k | LastFor(cookies, k, name) && k < |cookies| - 1
        ensures Applied(jar, cookies)[name] == cookies[k].value
      {
        assert init[k] == cookies[k];
        forall j | k < j < |init| ensures init[j].name != name {
          assert init[j] == cookies[j];
        }
      }
    }
  }

  /** The request's cookies and the response being built. */
  class Session {
    var requestCookies: map<string, string>
    var responseCookies: map<string, string>

    /** `NextResponse.next({ request })`: a response with no cookies set. */
    constructor (incoming: map<string, string>)
      ensures requestCookies == incoming && responseCookies == map[]
    {
      requestCookies := incoming;
      responseCookies := map[];
    }

    /** The `setAll` callback: every cookie is set on the request, the
        response is recreated, and every cookie is set on it. */
    method SetAll(cookies: seq<Cookie>)
      modifies this
      ensures requestCookies == Applied(old(requestCookies), cookies)
      ensures responseCookies == Applied(map[], cookies)
    {
      var i := 0;
      while i < |cookies|
        invariant i <= |cookies|
        invariant requestCookies == Applied(old(requestCookies), cookies[..i])
      {
        assert cookies[..i + 1][..i] == cookies[..i];
        requestCookies := requestCookies[cookies[i].name := cookies[i].value];
        i := i + 1;
      }
      assert cookies[..i] == cookies;
      responseCookies := map[];
      i := 0;
      while i < |cookies|
        invariant i <= |cookies|
        invariant responseCookies == Applied(map[], cookies[..i])
        invariant requestCookies == Applied(old(requestCookies), cookies)
      {
        assert cookies[..i + 1][..i] == cookies[..i];
        responseCookies := responseCookies[cookies[i].name := cookies[i].value];
        i := i + 1;
      }
      assert cookies[..i] == cookies;
    }
  }
}
