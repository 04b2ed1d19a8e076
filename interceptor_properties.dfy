/** What the permission check promises, stated over the decision functions of
    `Interceptor`; the two methods there do exactly what these functions decide. */
module InterceptorProperties {
  import opened Wrappers
  import opened PageModel
  import opened Interceptor

  // ---------------------------------------------------------------------------
  // An order-free reference for the decision

  /** The registry holds an app with id `appId`, the user holds its privilege, and
      `app` is that app. */
  ghost predicate Usable(services: Services, appId: string, app: Option<AppDescriptor>) {
    && appId in services.apps
    && app == Some(services.apps[appId])
    && services.apps[appId].requiredPrivilegeName in services.privileges
  }

  /** When a request may proceed with `app` as its current app, stated without the
      order of the checks: at most one annotation; a logged-in caller unless the page
      is public; for an app page its own app, for a shared page the requested app,
      which the list names unless the list is empty; and for any other page no app. */
  ghost predicate Admits(c: PageController, services: Services, requestAppId: Option<string>,
                         app: Option<AppDescriptor>)
  {
    && !Conflicting(c)
    && (c.publicPage.None? ==> services.authenticated)
    && (if c.appPage.Some? then
          Usable(services, c.appPage.value.value, app)
        else if c.sharedPage.Some? then
          && requestAppId.Some?
          && (c.sharedPage.value.values == [] || requestAppId.value in c.sharedPage.value.values)
          && Usable(services, requestAppId.value, app)
        else
          app.None?)
  }

  /** The interceptor lets a request through with `app` exactly when the reference
      admits it. */
  lemma AuthorizeSucceedsIff(c: PageController, services: Services, requestAppId: Option<string>,
                             app: Option<AppDescriptor>)
    ensures Authorize(c, services, requestAppId) == Success(app)
            <==> Admits(c, services, requestAppId, app)
  {
    AnnotationCountConflicting(c);
  }

  /** Whatever app the interceptor makes current, the caller is logged in, holds the
      app's privilege, and the app is the registry's entry for the page's app id (for a
      shared page, the requested id, which the page's list allows). */
  lemma AuthorizeGrantsOnlyPrivilegedApps(c: PageController, services: Services,
                                          requestAppId: Option<string>, app: AppDescriptor)
    requires Authorize(c, services, requestAppId) == Success(Some(app))
    ensures services.authenticated && c.publicPage.None?
    ensures app.requiredPrivilegeName in services.privileges
    ensures c.appPage.Some? ==>
              c.appPage.value.value in services.apps && app == services.apps[c.appPage.value.value]
    ensures c.appPage.None? ==>
              && c.sharedPage.Some? && requestAppId.Some?
              && requestAppId.value in services.apps && app == services.apps[requestAppId.value]
              && (c.sharedPage.value.values != [] ==> requestAppId.value in c.sharedPage.value.values)
  {
    AuthorizeSucceedsIff(c, services, requestAppId, Some(app));
  }

  /** With a registry that files each app under its own id, the current app is the app
      of the page's effective app id: the annotation's value on an app page, the
      requested `appId` on a shared page. */
  lemma CurrentAppIdIsEffectiveAppId(c: PageController, services: Services,
                                     requestAppId: Option<string>, app: AppDescriptor)
    requires services.Valid()
    requires Authorize(c, services, requestAppId) == Success(Some(app))
    ensures c.appPage.Some? ==> app.id == c.appPage.value.value
    ensures c.appPage.None? ==> requestAppId.Some? && app.id == requestAppId.value
  {
    AuthorizeGrantsOnlyPrivilegedApps(c, services, requestAppId, app);
  }

  // ---------------------------------------------------------------------------
  // The annotation check

  /** Two or more annotations throw the RuntimeException of the annotation check,
      whatever the login state, registry or request; and that exception is thrown for
      nothing else. */
  lemma ConflictingAnnotationsIff(c: PageController, services: Services, requestAppId: Option<string>)
    ensures Authorize(c, services, requestAppId) == Failure(RuntimeError(ConflictingAnnotations))
            <==> Conflicting(c)
  {
    AnnotationCountConflicting(c);
  }

  // ---------------------------------------------------------------------------
  // The login gate

  /** "Login is required" is thrown exactly for a caller who is not logged in, on a page
      that is not public and carries no clashing annotations. */
  lemma LoginRequiredIff(c: PageController, services: Services, requestAppId: Option<string>)
    ensures Authorize(c, services, requestAppId) == Failure(AuthenticationError(LoginRequired))
            <==> !Conflicting(c) && c.publicPage.None? && !services.authenticated
  {
    AnnotationCountConflicting(c);
  }

  /** For a caller who is not logged in on a page that is not public, the outcome does
      not depend on the registry, the privileges or the request: neither the app
      registry nor the privilege check is consulted. */
  lemma LoginGateIgnoresRegistry(c: PageController, s1: Services, s2: Services,
                                 a1: Option<string>, a2: Option<string>)
    requires c.publicPage.None? && !s1.authenticated && !s2.authenticated
    ensures Authorize(c, s1, a1) == Authorize(c, s2, a2)
    ensures Authorize(c, s1, a1).Failure?
  {
    AnnotationCountConflicting(c);
  }

  // ---------------------------------------------------------------------------
  // Pages with no app

  /** A request proceeds with no current app exactly when the page is neither an app
      page nor a shared page, and is public or the caller is logged in. */
  lemma NoAppIff(c: PageController, services: Services, requestAppId: Option<string>)
    ensures Authorize(c, services, requestAppId) == Success(None)
            <==> && c.appPage.None? && c.sharedPage.None?
                 && (c.publicPage.Some? || services.authenticated)
  {
    AuthorizeSucceedsIff(c, services, requestAppId, None);
  }

  /** A page carrying only `@PublicPage` lets everyone through, logged in or not, with
      no current app. */
  lemma PublicPageAdmitsAnyone(services: Services, requestAppId: Option<string>)
    ensures Authorize(PageController(Some(PublicPage), None, None), services, requestAppId) == Success(None)
  {
    NoAppIff(PageController(Some(PublicPage), None, None), services, requestAppId);
  }

  /** A page with no annotation needs a login, and then has no current app. */
  lemma UnannotatedPageNeedsLogin(services: Services, requestAppId: Option<string>)
    ensures Authorize(PageController(None, None, None), services, requestAppId)
            == if services.authenticated then Success(None)
               else Failure(AuthenticationError(LoginRequired))
  {
    NoAppIff(PageController(None, None, None), services, requestAppId);
    LoginRequiredIff(PageController(None, None, None), services, requestAppId);
  }

  // ---------------------------------------------------------------------------
  // App pages and shared pages

  /** An app page's app id is the annotation's value: the request's `appId` attribute
      is never read. */
  lemma AppPageIgnoresRequestAppId(c: PageController, authenticated: bool,
                                   a1: Option<string>, a2: Option<string>)
    requires c.appPage.Some?
    ensures RequestAppIdFor(c, authenticated, a1) == RequestAppIdFor(c, authenticated, a2)
    ensures !Conflicting(c) && authenticated ==>
              RequestAppIdFor(c, authenticated, a1) == Success(Some(c.appPage.value.value))
  {
    AnnotationCountConflicting(c);
  }

  /** For a shared page and a logged-in caller: a missing `appId` throws, an id outside
      a non-empty list throws, and an id the list allows (any id when the list is
      empty) is looked up as for an app page. */
  lemma SharedPageAppId(c: PageController, services: Services, requestAppId: Option<string>)
    requires c.sharedPage.Some? && !Conflicting(c) && services.authenticated
    ensures requestAppId.None? ==>
              Authorize(c, services, requestAppId) == Failure(RuntimeError(MissingAppId))
    ensures requestAppId.Some? && c.sharedPage.value.values != []
            && requestAppId.value !in c.sharedPage.value.values ==>
              Authorize(c, services, requestAppId)
              == Failure(RuntimeError(InvalidAppId(requestAppId.value)))
    ensures requestAppId.Some? && (c.sharedPage.value.values == []
            || requestAppId.value in c.sharedPage.value.values) ==>
              Authorize(c, services, requestAppId) == ResolveApp(requestAppId, services)
  {
    AnnotationCountConflicting(c);
  }

  /** A shared page with an empty list accepts every app id the registry knows and whose
      privilege the user holds. */
  lemma SharedPageEmptyListUnrestricted(services: Services, appId: string)
    requires services.authenticated
    requires appId in services.apps
    requires services.apps[appId].requiredPrivilegeName in services.privileges
    ensures Authorize(PageController(None, None, Some(SharedPage([]))), services, Some(appId))
            == Success(Some(services.apps[appId]))
  {
    SharedPageAppId(PageController(None, None, Some(SharedPage([]))), services, Some(appId));
  }

  // ---------------------------------------------------------------------------
  // The lookup and the privilege check of setRequestApp

  /** An app id resolves to the registry's app exactly when the registry knows it and
      the user holds its privilege; no app id resolves to no app. */
  lemma ResolveAppSucceedsIff(appId: Option<string>, services: Services, app: Option<AppDescriptor>)
    ensures ResolveApp(appId, services) == Success(app)
            <==> if appId.None? then app.None? else Usable(services, appId.value, app)
  {
  }

  /** The two exceptions of the lookup: an unknown id throws a RuntimeException, a known
      app whose privilege the user lacks throws an APIAuthenticationException. */
  lemma ResolveAppFailures(appId: string, services: Services)
    ensures appId !in services.apps ==>
              ResolveApp(Some(appId), services) == Failure(RuntimeError(NoSuchApp(appId)))
    ensures appId in services.apps && services.apps[appId].requiredPrivilegeName !in services.privileges ==>
              ResolveApp(Some(appId), services) == Failure(AuthenticationError(InsufficientPrivileges))
  {
  }

  /** Writing the same `currentApp` twice leaves the same map as writing it once. */
  lemma WithCurrentAppIdempotent(m: map<string, Value>, app: Option<AppDescriptor>)
    ensures WithCurrentApp(WithCurrentApp(m, app), app) == WithCurrentApp(m, app)
  {
  }
}
