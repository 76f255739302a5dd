/**
 * The pagination bookkeeping of the evaluations list: the token of the page
 * being shown, the stack of tokens of the pages before it, the status filter
 * and the page size. Tokens and the status filter are nullable.
 */
module EvaluationsController {
  import opened Wrappers

  datatype Controller = Controller(
    pageSize: int,
    nextToken: Option<string>,
    previousTokens: seq<Option<string>>,
    status: Option<string>)

  /** The pagination metadata of the loaded page, if the response carried any. */
  datatype Meta = Meta(nextToken: Option<string>)

  /** A fresh controller: first page, no filter, the page size from the user's settings. */
  function Init(userPageSize: int): (c: Controller)
    ensures c.nextToken.None? && c.previousTokens == [] && c.status.None?
    ensures c.pageSize == userPageSize
  {
    Controller(userPageSize, None, [], None)
  }

  /** A JavaScript truthiness test of a nullable string: null and "" are both false. */
  predicate Truthy(s: Option<string>) {
    s.Some? && s.value != ""
  }

  /** "Next" is disabled when the loaded page announces no further page. */
  predicate ShouldDisableNext(meta: Option<Meta>) {
    !(meta.Some? && Truthy(meta.value.nextToken))
  }

  /** "Previous" is disabled on the first page. */
  predicate ShouldDisablePrev(c: Controller) {
    |c.previousTokens| == 0
  }

  /** Only the page size changes; the page shown and the filter stay. */
  function OnChange(c: Controller, newPageSize: int): (r: Controller)
    ensures r.pageSize == newPageSize
    ensures r.nextToken == c.nextToken && r.previousTokens == c.previousTokens && r.status == c.status
  {
    c.(pageSize := newPageSize)
  }

  /** Go forward: remember the current token and move to `token`. */
  function OnNext(c: Controller, token: Option<string>): (r: Controller)
    ensures |r.previousTokens| == |c.previousTokens| + 1
    ensures r.previousTokens[..|c.previousTokens|] == c.previousTokens
    ensures r.previousTokens[|c.previousTokens|] == c.nextToken
    ensures r.nextToken == token
    ensures r.pageSize == c.pageSize && r.status == c.status
  {
    c.(previousTokens := c.previousTokens + [c.nextToken], nextToken := token)
  }

  /**
   * Go back: pop the last remembered token and show that page. On an empty
   * stack the pop yields `undefined`, read here as no token.
   */
  function OnPrev(c: Controller): (r: Controller)
    ensures |c.previousTokens| > 0 ==>
      && r.previousTokens + [r.nextToken] == c.previousTokens
    ensures |c.previousTokens| == 0 ==> r.previousTokens == [] && r.nextToken.None?
    ensures r.pageSize == c.pageSize && r.status == c.status
  {
    if |c.previousTokens| == 0 then c.(nextToken := None)
    else
      var n := |c.previousTokens|;
      c.(previousTokens := c.previousTokens[..n - 1], nextToken := c.previousTokens[n - 1])
  }

  /** Back to the first page, keeping page size and filter. */
  function ResetTokens(c: Controller): (r: Controller)
    ensures ShouldDisablePrev(r) && r.nextToken.None?
    ensures r.pageSize == c.pageSize && r.status == c.status
  {
    c.(nextToken := None, previousTokens := [])
  }

  /** Back to the first page, with no filter and the user's page size. */
  function Refresh(c: Controller, userPageSize: int): (r: Controller)
    ensures r == Init(userPageSize)
  {
    ResetTokens(c).(status := None, pageSize := userPageSize)
  }

  /** Filter by `selection` (null for all) and restart from the first page. */
  function SetStatus(c: Controller, selection: Option<string>): (r: Controller)
    ensures r == Init(c.pageSize).(status := selection)
  {
    ResetTokens(c).(status := selection)
  }

  // -----------------------------------------------------------------------
  // Properties of the navigation

  /** Going forward then back returns to exactly the same controller. */
  lemma NextThenPrev(c: Controller, token: Option<string>)
    ensures OnPrev(OnNext(c, token)) == c
  {
  }

  /** Follow a run of `next` tokens forward, one page per token. */
  function ForwardAll(c: Controller, tokens: seq<Option<string>>): (r: Controller)
    ensures |r.previousTokens| == |c.previousTokens| + |tokens|
    ensures r.pageSize == c.pageSize && r.status == c.status
    decreases |tokens|
  {
    if |tokens| == 0 then c else ForwardAll(OnNext(c, tokens[0]), tokens[1..])
  }

  /** Press "previous" `n` times. */
  function BackN(c: Controller, n: nat): Controller
    decreases n
  {
    if n == 0 then c else BackN(OnPrev(c), n - 1)
  }

  /** Going forward any number of pages and back as many restores the controller. */
  lemma {:induction false} ForwardThenBack(c: Controller, tokens: seq<Option<string>>)
    ensures BackN(ForwardAll(c, tokens), |tokens|) == c
    decreases |tokens|
  {
    if |tokens| > 0 {
      var c' := OnNext(c, tokens[0]);
      var f := ForwardAll(c', tokens[1..]);
      assert ForwardAll(c, tokens) == f;
      ForwardThenBack(c', tokens[1..]);
      BackNSplit(f, |tokens| - 1);
      NextThenPrev(c, tokens[0]);
    }
  }

  /** Pressing "previous" `n + 1` times is pressing it `n` times and once more. */
  lemma {:induction false} BackNSplit(c: Controller, n: nat)
    ensures BackN(c, n + 1) == BackN(BackN(c, n), 1)
    decreases n
  {
    if n > 0 {
      BackNSplit(OnPrev(c), n - 1);
    }
  }

  /** "Previous" is enabled exactly when some page was left by "next" and not yet returned to. */
  lemma DisablePrevIffFirstPage(c: Controller, tokens: seq<Option<string>>)
    requires c.previousTokens == []
    ensures ShouldDisablePrev(ForwardAll(c, tokens)) <==> |tokens| == 0
  {
  }

  /** The page size setting is independent of navigation. */
  lemma PageSizeCommutes(c: Controller, n: int, token: Option<string>)
    ensures OnNext(OnChange(c, n), token) == OnChange(OnNext(c, token), n)
    ensures OnPrev(OnChange(c, n)) == OnChange(OnPrev(c), n)
    ensures ShouldDisablePrev(OnChange(c, n)) == ShouldDisablePrev(c)
  {
  }

  /** Following an enabled "next" leads to a page with a token and with "previous" enabled. */
  lemma FollowEnabledNext(c: Controller, meta: Option<Meta>)
    requires !ShouldDisableNext(meta)
    ensures Truthy(OnNext(c, meta.value.nextToken).nextToken)
    ensures !ShouldDisablePrev(OnNext(c, meta.value.nextToken))
  {
  }

  /** Changing the filter forgets the whole navigation history. */
  lemma SetStatusForgetsHistory(c1: Controller, c2: Controller, selection: Option<string>)
    requires c1.pageSize == c2.pageSize
    ensures SetStatus(c1, selection) == SetStatus(c2, selection)
    ensures ShouldDisablePrev(SetStatus(c1, selection))
  {
  }
}
