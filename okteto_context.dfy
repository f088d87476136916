/**
 * The pure decisions of the Okteto context store: looking contexts up in the
 * list the CLI reports, reconciling that list into the current context, and
 * computing the dashboard link of a launched environment.
 */
module OktetoContext {
  import opened Wrappers

  /** One configured Okteto context, as the CLI reports it. */
  datatype Context = Context(name: string, namespace: Option<string>, current: bool)

  /** A launched environment: the manifest file and an optional dashboard link. */
  datatype Environment = Environment(file: string, link: Option<string>)

  /** The context whose presence means "logged in to Okteto Cloud". */
  const DefaultContextName: string := "https://cloud.okteto.com"

  /** Every dashboard link is this prefix followed by a namespace. */
  const SpacesUrl: string := "https://cloud.okteto.com/#/spaces/"

  /**
   * The `protocol` of `new URL(name)` from the WHATWG URL Standard, or None
   * when that constructor throws. URL parsing itself is not modelled: every
   * operation that needs it takes such a function as a parameter.
   */
  type UrlProtocol = string -> Option<string>

  // ---------------------------------------------------------------------------
  // Array.prototype.find

  /** `s[k]` is the first element of `s` that satisfies `p`. */
  ghost predicate IsFirstMatch<T>(s: seq<T>, p: T -> bool, k: int)
  {
    0 <= k < |s| && p(s[k]) && forall j :: 0 <= j < k ==> !p(s[j])
  }

  /** JavaScript's `s.find(p)`: the first element satisfying `p`, if any. */
  function Find<T>(s: seq<T>, p: T -> bool): (r: Option<T>)
    ensures r.None? <==> forall i :: 0 <= i < |s| ==> !p(s[i])
    ensures r.Some? ==> exists k :: IsFirstMatch(s, p, k) && s[k] == r.value
  {
    if s == [] then None
    else if p(s[0]) then
      assert IsFirstMatch(s, p, 0);
      Some(s[0])
    else
      FirstMatchShift(s, p);
      Find(s[1..], p)
  }

  /** A first match in the tail of `s` is one position later in `s`, when `s[0]` fails `p`. */
  lemma FirstMatchShift<T>(s: seq<T>, p: T -> bool)
    requires |s| > 0 && !p(s[0])
    ensures forall k :: IsFirstMatch(s[1..], p, k) ==> IsFirstMatch(s, p, k + 1) && s[k + 1] == s[1..][k]
  {
    forall k | IsFirstMatch(s[1..], p, k)
      ensures IsFirstMatch(s, p, k + 1) && s[k + 1] == s[1..][k]
    {
      forall j | 0 <= j < k + 1
        ensures !p(s[j])
      {
        if j > 0 {
          assert s[j] == s[1..][j - 1];
        }
      }
    }
  }

  /** There is at most one first match. */
  lemma FirstMatchUnique<T>(s: seq<T>, p: T -> bool, k: int, k': int)
    requires IsFirstMatch(s, p, k) && IsFirstMatch(s, p, k')
    ensures k == k'
  {
  }

  // ---------------------------------------------------------------------------
  // Reconciling a polled context list

  /** The list holds the default (Okteto Cloud) context: the user is logged in. */
  ghost predicate HasDefault(list: seq<Context>)
  {
    exists i :: 0 <= i < |list| && list[i].name == DefaultContextName
  }

  /** Some entry of the list reports itself as the current context. */
  ghost predicate HasCurrent(list: seq<Context>)
  {
    exists i :: 0 <= i < |list| && list[i].current
  }

  /** `list[k]` is the first entry whose `current` flag is set. */
  ghost predicate IsFirstCurrent(list: seq<Context>, k: int)
  {
    0 <= k < |list| && list[k].current && forall j :: 0 <= j < k ==> !list[j].current
  }

  /**
   * The current context after a poll that returned `list`, when it was
   * `prev` before: refreshContext's two `find` lookups and its if/else.
   */
  function Reconcile(list: seq<Context>, prev: Option<Context>): (r: Option<Context>)
    ensures !HasDefault(list) ==> r == None
    ensures HasDefault(list) && !HasCurrent(list) ==> r == prev
    ensures HasDefault(list) && HasCurrent(list) ==>
              exists k :: IsFirstCurrent(list, k) && r == Some(list[k])
  {
    var isLoggedIn := Find(list, (c: Context) => c.name == DefaultContextName);
    var context := Find(list, (c: Context) => c.current);
    if isLoggedIn.None? then None
    else if context.Some? then context
    else prev
  }

  /** When logged in, the first entry flagged current becomes the current context. */
  lemma ReconcileFirstCurrentWins(list: seq<Context>, prev: Option<Context>, k: int)
    requires HasDefault(list) && IsFirstCurrent(list, k)
    ensures Reconcile(list, prev) == Some(list[k])
  {
    var r := Reconcile(list, prev);
    var k' :| IsFirstCurrent(list, k') && r == Some(list[k']);
    var p := (c: Context) => c.current;
    assert IsFirstMatch(list, p, k) && IsFirstMatch(list, p, k');
    FirstMatchUnique(list, p, k, k');
  }

  /** The result is the previous context, nothing, or an entry of the list. */
  lemma ReconcileResultOrigin(list: seq<Context>, prev: Option<Context>)
    ensures var r := Reconcile(list, prev);
            r == None || r == prev || (r.Some? && r.value in list && r.value.current)
  {
    if HasDefault(list) && HasCurrent(list) {
      var r := Reconcile(list, prev);
      var k :| IsFirstCurrent(list, k) && r == Some(list[k]);
      assert list[k] in list;
    }
  }

  // ---------------------------------------------------------------------------
  // Dashboard links

  /** isOktetoInstance: the context name parses as a URL with protocol http: or https:. */
  function IsOktetoInstance(c: Context, urlProtocol: UrlProtocol): (isInstance: bool)
    ensures isInstance <==> urlProtocol(c.name) in {Some("http:"), Some("https:")}
  {
    match urlProtocol(c.name)
    case None => false
    case Some(protocol) => protocol == "http:" || protocol == "https:"
  }

  /** The namespace a dashboard link points at: the inverse of building the link. */
  function SpaceOfLink(link: string): (ns: Option<string>)
    ensures ns.Some? <==> SpacesUrl <= link
    ensures ns.Some? ==> SpacesUrl + ns.value == link
  {
    if SpacesUrl <= link then Some(link[|SpacesUrl|..]) else None
  }

  /** The link selectEnvironment stores: only for an Okteto instance as current context. */
  function EnvironmentLink(current: Option<Context>, urlProtocol: UrlProtocol): (link: Option<string>)
    ensures link.Some? <==>
              current.Some? && urlProtocol(current.value.name) in {Some("http:"), Some("https:")}
    ensures link.Some? ==> SpaceOfLink(link.value) == Some(current.value.namespace.GetOr(""))
  {
    if current.Some? && IsOktetoInstance(current.value, urlProtocol) then
      var l := SpacesUrl + current.value.namespace.GetOr("");
      assert SpacesUrl <= l;
      assert l[|SpacesUrl|..] == current.value.namespace.GetOr("");
      Some(l)
    else
      None
  }

  /** A name that does not parse as a URL never gets a link. */
  lemma UnparsableNameHasNoLink(c: Context, urlProtocol: UrlProtocol)
    requires urlProtocol(c.name) == None
    ensures EnvironmentLink(Some(c), urlProtocol) == None
  {
  }
}
