/**
 `get_current_url()`: the page the admin is on, with the one-shot nonce and
 `redirect_to` arguments removed, computed on first use and remembered for
 the rest of the request.
 */
module CurrentUrl {
  import opened Strings

  /** A URL as a base and its query arguments in order. */
  datatype Url = Url(base: string, query: seq<(string, string)>)

  /** The request being served: `add_query_arg( array() )` in the admin, and
      `home_url( add_query_arg( array(), $wp->request ) )` on the front end. */
  datatype Request = Request(admin: bool, adminUrl: Url, frontUrl: Url)

  predicate IsTransientArg(key: string) {
    key == "_wpnonce" || key == "redirect_to"
  }

  /** The query arguments other than `_wpnonce` and `redirect_to`, in order. */
  function KeepArgs(q: seq<(string, string)>): (r: seq<(string, string)>)
    ensures |r| <= |q|
    ensures forall i :: 0 <= i < |r| ==> !IsTransientArg(r[i].0) && r[i] in q
    ensures forall i :: 0 <= i < |q| && !IsTransientArg(q[i].0) ==> q[i] in r
    ensures (forall i :: 0 <= i < |q| ==> !IsTransientArg(q[i].0)) ==> r == q
  {
    if q == [] then []
    else if IsTransientArg(q[0].0) then KeepArgs(q[1..])
    else [q[0]] + KeepArgs(q[1..])
  }

  /** The kept arguments stay in their original order: filtering a
      concatenation is concatenating the filtered parts. */
  lemma {:induction false} KeepArgsAppend(a: seq<(string, string)>, b: seq<(string, string)>)
    ensures KeepArgs(a + b) == KeepArgs(a) + KeepArgs(b)
    decreases |a|
  {
    if a == [] {
      assert a + b == b;
    } else {
      assert (a + b)[0] == a[0];
      assert (a + b)[1..] == a[1..] + b;
      KeepArgsAppend(a[1..], b);
    }
  }

  /** `remove_query_arg( array( '_wpnonce', 'redirect_to' ), $url )`. */
  function StripTransientArgs(u: Url): (r: Url)
    ensures r.base == u.base
    ensures r.query == KeepArgs(u.query)
  {
    Url(u.base, KeepArgs(u.query))
  }

  /** Stripping twice is stripping once. */
  lemma StripIdempotent(u: Url)
    ensures StripTransientArgs(StripTransientArgs(u)) == StripTransientArgs(u)
  {
  }

  /** What a fresh computation of the current URL yields; `render` is the
      host's conversion of a URL to text. */
  function FreshUrl(req: Request, render: Url -> string): string {
    render(StripTransientArgs(if req.admin then req.adminUrl else req.frontUrl))
  }

  /** The URL returned and the memo left behind. */
  datatype Memoised = Memoised(url: string, memo: string)

  /** `get_current_url()` with its memo `$this->current_url`. */
  function GetCurrentUrl(memo: string, req: Request, render: Url -> string): (m: Memoised)
    ensures !PhpEmpty(memo) ==> m == Memoised(memo, memo)
    ensures PhpEmpty(memo) ==> m.url == FreshUrl(req, render) && m.memo == m.url
  {
    if PhpEmpty(memo) then
      var url := FreshUrl(req, render);
      Memoised(url, url)
    else Memoised(memo, memo)
  }

  /** Once computed, the memo answers every later call the same way. */
  lemma {:induction false} MemoStable(memo: string, req: Request, render: Url -> string)
    ensures var m := GetCurrentUrl(memo, req, render);
            GetCurrentUrl(m.memo, req, render) == m
  {
  }

  /** Starting from an empty memo, every call during the request returns the
      same URL: the fresh one. */
  lemma SameUrlThroughout(memo: string, req: Request, render: Url -> string)
    requires memo == "" || memo == FreshUrl(req, render)
    ensures GetCurrentUrl(memo, req, render).url == FreshUrl(req, render)
    ensures var m := GetCurrentUrl(memo, req, render).memo; m == "" || m == FreshUrl(req, render)
  {
  }
}
