/** The permission check run before every page request: the annotation check, the
    login gate, the resolution of the request's app id, the registry lookup with its
    privilege check, and the writes of `currentApp` into the page context. */
module Interceptor {
  import opened Wrappers
  import opened PageModel

  // ---------------------------------------------------------------------------
  // The annotation count

  /** The number of arguments that are not null. */
  function NonNullCount<T>(args: seq<Option<T>>): (n: nat)
    ensures n <= |args|
    ensures n == 0 <==> forall i :: 0 <= i < |args| ==> args[i].None?
  {
    if args == [] then 0
    else (if args[0].Some? then 1 else 0) + NonNullCount(args[1..])
  }

  /** Counting an extra argument at the end adds one exactly when it is not null. */
  lemma {:induction false} NonNullCountSnoc<T>(args: seq<Option<T>>, x: Option<T>)
    ensures NonNullCount(args + [x]) == NonNullCount(args) + (if x.Some? then 1 else 0)
  {
    if args == [] {
      assert args + [x] == [x];
      assert [x][1..] == [];
    } else {
      assert (args + [x])[1..] == args[1..] + [x];
      NonNullCountSnoc(args[1..], x);
    }
  }

  /** Every argument is counted exactly when none of them is null. */
  lemma {:induction false} NonNullCountAll<T>(args: seq<Option<T>>)
    ensures NonNullCount(args) == |args| <==> forall i :: 0 <= i < |args| ==> args[i].Some?
  {
    if args != [] {
      NonNullCountAll(args[1..]);
      assert forall i :: 1 <= i < |args| ==> args[i] == args[1..][i - 1];
    }
  }

  /** `countNonNull`: the loop over the arguments that counts those that are not null.
      The count never exceeds the number of arguments, so the source's `int` cannot
      overflow. */
  method CountNonNull<T>(args: seq<Option<T>>) returns (count: int)
    ensures count == NonNullCount(args)
    ensures 0 <= count <= |args|
  {
    count := 0;
    for i := 0 to |args|
      invariant count == NonNullCount(args[..i])
    {
      if args[i].Some? {
        count := count + 1;
      }
      assert args[..i + 1] == args[..i] + [args[i]];
      NonNullCountSnoc(args[..i], args[i]);
    }
    assert args[..|args|] == args;
  }

  /** The controller carries two or more of the three annotations. */
  predicate Conflicting(c: PageController) {
    || (c.publicPage.Some? && c.appPage.Some?)
    || (c.publicPage.Some? && c.sharedPage.Some?)
    || (c.appPage.Some? && c.sharedPage.Some?)
  }

  /** The count the interceptor tests exceeds one exactly when two annotations clash. */
  lemma AnnotationCountConflicting(c: PageController)
    ensures NonNullCount(c.Annotations()) > 1 <==> Conflicting(c)
  {
    var a := c.Annotations();
    assert a[1..][1..][1..] == [];
    assert NonNullCount(a[1..][1..]) == (if c.sharedPage.Some? then 1 else 0);
    assert NonNullCount(a[1..]) == (if c.appPage.Some? then 1 else 0) + NonNullCount(a[1..][1..]);
  }

  // ---------------------------------------------------------------------------
  // The decision, as functions of the inputs

  /** The first part of `beforeHandleRequest`: the app id the request is for (None when
      it is for no app), or the exception thrown before any app is looked up. The
      checks run in the source's order: annotation count, login, then the app id. */
  function RequestAppIdFor(c: PageController, authenticated: bool, requestAppId: Option<string>)
    : Result<Option<string>, Failure>
  {
    if NonNullCount(c.Annotations()) > 1 then
      Failure(RuntimeError(ConflictingAnnotations))
    else if c.publicPage.None? && !authenticated then
      Failure(AuthenticationError(LoginRequired))
    else if c.appPage.Some? then
      Success(Some(c.appPage.value.value))
    else if c.sharedPage.Some? then
      if requestAppId.None? then
        Failure(RuntimeError(MissingAppId))
      else if |c.sharedPage.value.values| > 0 && requestAppId.value !in c.sharedPage.value.values then
        Failure(RuntimeError(InvalidAppId(requestAppId.value)))
      else
        Success(requestAppId)
    else
      Success(None)
  }

  /** The checks of `setRequestApp`: the app to store as current (None for no app id),
      or the exception thrown when the id is unknown or the user lacks its privilege. */
  function ResolveApp(appId: Option<string>, services: Services): Result<Option<AppDescriptor>, Failure>
  {
    if appId.None? then
      Success(None)
    else
      match services.GetAppById(appId.value)
      case None => Failure(RuntimeError(NoSuchApp(appId.value)))
      case Some(app) =>
        if !services.HasPrivilege(app.requiredPrivilegeName) then
          Failure(AuthenticationError(InsufficientPrivileges))
        else
          Success(Some(app))
  }

  /** The whole decision of `beforeHandleRequest`: the app stored as current, or the
      exception that aborts the request. */
  function Authorize(c: PageController, services: Services, requestAppId: Option<string>)
    : Result<Option<AppDescriptor>, Failure>
  {
    match RequestAppIdFor(c, services.authenticated, requestAppId)
    case Failure(e) => Failure(e)
    case Success(appId) => ResolveApp(appId, services)
  }

  // ---------------------------------------------------------------------------
  // The operations on the page context

  /** `setRequestApp`: look the app up, check the user's privilege for it, and only then
      store it (null when there is no app id) as `currentApp` in both the request
      attributes and the model. A thrown exception leaves the context untouched. */
  method SetRequestApp(ctx: PageContext, appId: Option<string>, services: Services)
    returns (outcome: Outcome<Failure>)
    modifies ctx
    ensures outcome == ResolveApp(appId, services).ToOutcome()
    ensures ResolveApp(appId, services).Success? ==>
              && ctx.attributes == WithCurrentApp(old(ctx.attributes), ResolveApp(appId, services).value)
              && ctx.model == WithCurrentApp(old(ctx.model), ResolveApp(appId, services).value)
    ensures ResolveApp(appId, services).Failure? ==>
              ctx.attributes == old(ctx.attributes) && ctx.model == old(ctx.model)
  {
    var app: Option<AppDescriptor> := None;
    if appId.Some? {
      app := services.GetAppById(appId.value);
      if app.None? {
        return Fail(RuntimeError(NoSuchApp(appId.value)));
      }
      if !services.HasPrivilege(app.value.requiredPrivilegeName) {
        return Fail(AuthenticationError(InsufficientPrivileges));
      }
    }
    ctx.attributes := ctx.attributes[CurrentAppKey := AppValue(app)];
    ctx.model := ctx.model[CurrentAppKey := AppValue(app)];
    outcome := Pass;
  }

  /** `beforeHandleRequest`: the annotation count, the login gate and the resolution of
      the app id, then `setRequestApp`. It does what `Authorize` decides, and the context
      changes only on success, and then only in `currentApp`. */
  method BeforeHandleRequest(ctx: PageContext, c: PageController, services: Services)
    returns (outcome: Outcome<Failure>)
    modifies ctx
    ensures outcome == Authorize(c, services, ctx.GetRequestAttribute(AppIdKey)).ToOutcome()
    ensures Authorize(c, services, ctx.GetRequestAttribute(AppIdKey)).Success? ==>
              var app := Authorize(c, services, ctx.GetRequestAttribute(AppIdKey)).value;
              ctx.attributes == WithCurrentApp(old(ctx.attributes), app) &&
              ctx.model == WithCurrentApp(old(ctx.model), app)
    ensures Authorize(c, services, ctx.GetRequestAttribute(AppIdKey)).Failure? ==>
              ctx.attributes == old(ctx.attributes) && ctx.model == old(ctx.model)
  {
    var publicPage, appPage, sharedPage := c.publicPage, c.appPage, c.sharedPage;

    var count := CountNonNull(c.Annotations());
    if count > 1 {
      return Fail(RuntimeError(ConflictingAnnotations));
    }

    if publicPage.None? && !services.IsAuthenticated() {
      return Fail(AuthenticationError(LoginRequired));
    }

    var requestAppId: Option<string> := None;
    if appPage.Some? {
      requestAppId := Some(appPage.value.value);
    } else if sharedPage.Some? {
      requestAppId := ctx.GetRequestAttribute(AppIdKey);
      if requestAppId.None? {
        return Fail(RuntimeError(MissingAppId));
      }
      var allowedAppIds := sharedPage.value.values;
      if |allowedAppIds| > 0 && requestAppId.value !in allowedAppIds {
        return Fail(RuntimeError(InvalidAppId(requestAppId.value)));
      }
    }

    outcome := SetRequestApp(ctx, requestAppId, services);
  }

  /** Two calls of `setRequestApp` with the same app id throw alike and leave the same
      context as one call does. */
  method SetRequestAppTwice(ctx: PageContext, appId: Option<string>, services: Services)
    returns (first: Outcome<Failure>, second: Outcome<Failure>)
    modifies ctx
    ensures first == second
    ensures ResolveApp(appId, services).Success? ==>
              && ctx.attributes == WithCurrentApp(old(ctx.attributes), ResolveApp(appId, services).value)
              && ctx.model == WithCurrentApp(old(ctx.model), ResolveApp(appId, services).value)
    ensures ResolveApp(appId, services).Failure? ==>
              ctx.attributes == old(ctx.attributes) && ctx.model == old(ctx.model)
  {
    first := SetRequestApp(ctx, appId, services);
    second := SetRequestApp(ctx, appId, services);
  }
}
