/** The entities the page-request interceptor reads and writes: the three page
    annotations on a controller, the app descriptors of the app registry, the
    services it consults, the failures it throws and the page context it enriches. */
module PageModel {
  import opened Wrappers

  /** The marker annotation `@PublicPage`: the page needs no login. */
  datatype PublicPage = PublicPage

  /** `@AppPage(value)`: the page belongs to the app with id `value`. */
  datatype AppPage = AppPage(value: string)

  /** `@SharedPage(values)`: the page can be reached from any of the apps whose ids are
      listed (from any app at all when the list is empty); the request names which. */
  datatype SharedPage = SharedPage(values: seq<string>)

  /** Any one of the three annotations, as the untyped argument of the annotation count. */
  datatype Annotation =
    | PublicAnnotation(publicPage: PublicPage)
    | AppAnnotation(appPage: AppPage)
    | SharedAnnotation(sharedPage: SharedPage)

  /** What the interceptor learns of the page controller's class: the annotation of each
      kind it carries, or None where it carries none. */
  datatype PageController = PageController(
    publicPage: Option<PublicPage>,
    appPage: Option<AppPage>,
    sharedPage: Option<SharedPage>)
  {
    /** The three annotations in the order the interceptor passes them to its count. */
    function Annotations(): (r: seq<Option<Annotation>>)
      ensures |r| == 3
      ensures r[0].Some? == publicPage.Some? && r[1].Some? == appPage.Some?
      ensures r[2].Some? == sharedPage.Some?
    {
      [publicPage.Map(p => PublicAnnotation(p)),
       appPage.Map(a => AppAnnotation(a)),
       sharedPage.Map(s => SharedAnnotation(s))]
    }
  }

  /** An app of the app framework, with the privilege a user needs to use it. */
  datatype AppDescriptor = AppDescriptor(id: string, requiredPrivilegeName: string)

  /** The services the interceptor consults: whether the caller is logged in, the
      privileges the current user holds, and the app registry keyed by app id. */
  datatype Services = Services(
    authenticated: bool,
    privileges: set<string>,
    apps: map<string, AppDescriptor>)
  {
    /** The registry files every app under its own id, as the app framework does. */
    predicate Valid() {
      forall appId :: appId in apps ==> apps[appId].id == appId
    }

    predicate IsAuthenticated() {
      authenticated
    }

    predicate HasPrivilege(name: string) {
      name in privileges
    }

    /** The registry lookup: the app with that id, or null when there is none. */
    function GetAppById(appId: string): (r: Option<AppDescriptor>)
      ensures r.Some? <==> appId in apps
      ensures r.Some? ==> r.value == apps[appId]
    {
      if appId in apps then Some(apps[appId]) else None
    }
  }

  /** Why a RuntimeException is thrown. */
  datatype RuntimeReason =
    | ConflictingAnnotations        // more than one of the three annotations
    | MissingAppId                  // a shared page requested without appId
    | InvalidAppId(appId: string)   // an appId outside the shared page's list
    | NoSuchApp(appId: string)      // an app id the registry does not know

  /** Why an APIAuthenticationException is thrown. */
  datatype AuthenticationReason =
    | LoginRequired                 // not a public page, and nobody is logged in
    | InsufficientPrivileges        // the user lacks the app's required privilege

  /** The two exception types the interceptor throws. */
  datatype Failure =
    | RuntimeError(runtimeReason: RuntimeReason)
    | AuthenticationError(authenticationReason: AuthenticationReason)

  /** A value held in an attribute map: the resolved app (null when None), or some
      other object put there by another stage of the request pipeline. */
  datatype Value = AppValue(app: Option<AppDescriptor>) | OtherValue(name: string)

  /** The key under which the resolved app is stored. */
  const CurrentAppKey: string := "currentApp"

  /** The request attribute that names the app of a shared page. */
  const AppIdKey: string := "appId"

  /** The page context of one request: the inbound request attributes, which the
      interceptor only reads, and the outbound request attributes and view model,
      which it writes. */
  class PageContext {
    const requestAttributes: map<string, string>
    var attributes: map<string, Value>
    var model: map<string, Value>

    constructor (requestAttributes: map<string, string>, attributes: map<string, Value>,
                 model: map<string, Value>)
      ensures this.requestAttributes == requestAttributes
      ensures this.attributes == attributes && this.model == model
    {
      this.requestAttributes := requestAttributes;
      this.attributes := attributes;
      this.model := model;
    }

    /** The inbound request attribute `name`, or null when it is not set. */
    function GetRequestAttribute(name: string): (r: Option<string>)
      ensures r.Some? <==> name in requestAttributes
      ensures r.Some? ==> r.value == requestAttributes[name]
    {
      if name in requestAttributes then Some(requestAttributes[name]) else None
    }
  }

  /** An attribute map after `currentApp` is set to `app`: that key now holds `app`,
      present even when `app` is null, and every other key is as before. */
  function WithCurrentApp(m: map<string, Value>, app: Option<AppDescriptor>): (r: map<string, Value>)
    ensures CurrentAppKey in r && r[CurrentAppKey] == AppValue(app)
    ensures r.Keys == m.Keys + {CurrentAppKey}
    ensures forall k :: k in m && k != CurrentAppKey ==> r[k] == m[k]
  {
    m[CurrentAppKey := AppValue(app)]
  }
}
