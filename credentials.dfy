/** The three places a session token can come from: the Keychain, the browser's cookie
    jar for leetcode.com, and a prompt asking the user to paste it. */
module Credentials {
  import opened Wrappers
  import opened Text
  import GraphQLClient

  datatype Cookie = Cookie(name: string, value: string)

  predicate IsSessionCookie(c: Cookie) {
    c.name == GraphQLClient.SessionCookieName
  }

  /** `browserCookie`: the value of the first cookie in the jar named `LEETCODE_SESSION`. */
  function BrowserCookie(jar: seq<Cookie>): (r: Option<string>)
    ensures r.None? <==> forall i :: 0 <= i < |jar| ==> !IsSessionCookie(jar[i])
    ensures r.Some? ==> exists i :: 0 <= i < |jar| && IsSessionCookie(jar[i]) && jar[i].value == r.value
                                    && forall j :: 0 <= j < i ==> !IsSessionCookie(jar[j])
  {
    if jar == [] then None
    else if IsSessionCookie(jar[0]) then Some(jar[0].value)
    else
      var r := BrowserCookie(jar[1..]);
      assert r.Some? ==> exists i :: 0 < i < |jar| && IsSessionCookie(jar[i]) && jar[i].value == r.value
                                     && forall j :: 0 <= j < i ==> !IsSessionCookie(jar[j]) by {
        if r.Some? {
          var i :| 0 <= i < |jar[1..]| && IsSessionCookie(jar[1..][i]) && jar[1..][i].value == r.value
                   && forall j :: 0 <= j < i ==> !IsSessionCookie(jar[1..][j]);
          assert forall j :: 0 < j < i + 1 ==> jar[j] == jar[1..][j - 1];
        }
      }
      assert r.None? ==> forall i :: 0 < i < |jar| ==> !IsSessionCookie(jar[i]) by {
        if r.None? {
          assert forall i :: 0 < i < |jar| ==> jar[i] == jar[1..][i - 1];
        }
      }
      r
  }

  datatype Button = Submit | Cancel

  /** What the user did with the prompt: the button pressed and the text in the field. */
  datatype PromptReply = PromptReply(button: Button, field: string)

  /** The prompt's acceptance rule: Submit with a field that is not blank after trimming
      yields the trimmed text; Cancel or a blank field yields nothing. */
  function AcceptedToken(reply: PromptReply): (r: Option<string>)
    ensures r.Some? <==> reply.button == Submit && !AllWhitespace(reply.field)
    ensures r.Some? ==> r.value == Trim(reply.field)
    ensures r.Some? ==> r.value != [] && !IsWhitespace(r.value[0]) && !IsWhitespace(r.value[|r.value| - 1])
  {
    var token := Trim(reply.field);
    if reply.button == Submit && token != [] then Some(token) else None
  }

  /** The token the fallback chain settles on: the stored one, else the browser's, else
      what the prompt accepted. `reply` is None when the prompt had not been answered
      by the time the chain looked for its result. */
  function SessionChoice(stored: Option<string>, jar: seq<Cookie>, reply: Option<PromptReply>): (r: Option<string>)
    ensures stored.Some? ==> r == stored
    ensures stored.None? ==> (r.None? <==>
      (forall i :: 0 <= i < |jar| ==> !IsSessionCookie(jar[i]))
      && (reply.None? || reply.value.button == Cancel || AllWhitespace(reply.value.field)))
    ensures stored.None? && BrowserCookie(jar).Some? ==> r == BrowserCookie(jar)
    ensures stored.None? && BrowserCookie(jar).None? ==>
      r == (if reply.Some? then AcceptedToken(reply.value) else None)
    ensures stored.None? && BrowserCookie(jar).None? && r.Some? ==> r.value != []
  {
    if stored.Some? then stored
    else if BrowserCookie(jar).Some? then BrowserCookie(jar)
    else if reply.Some? then AcceptedToken(reply.value)
    else None
  }

  /** The Keychain item holding the token, with a log of every save. */
  class Keychain {
    var stored: Option<string>
    ghost var saves: seq<string>

    constructor (initial: Option<string>)
      ensures stored == initial && saves == []
    {
      stored := initial;
      saves := [];
    }

    method Read() returns (token: Option<string>)
      ensures token == stored
    {
      token := stored;
    }

    method Save(token: string)
      modifies this
      ensures stored == Some(token) && saves == old(saves) + [token]
    {
      stored := Some(token);
      saves := saves + [token];
    }
  }
}
