# Page permission check of the Kenya UI module

A Dafny model of `PermissionCheckPageRequestInterceptor`, the guard the OpenMRS UI
framework runs before every page controller of the Kenya UI module. The guard reads the
controller's three page annotations (`@PublicPage`, `@AppPage(value)`,
`@SharedPage(values)`), rejects a controller carrying more than one of them, demands a
login for any page that is not public, works out the app id the request is for (the
annotation's value on an app page, the request's `appId` attribute on a shared page,
checked against the page's list of allowed ids unless that list is empty), looks the app
up in the app registry, checks that the user holds the app's required privilege, and
finally stores the app (null when there is none) as `currentApp` in both the request
attributes and the view model.

- `wrappers.dfy` — `Option` (a nullable reference), `Result` (a return value or a thrown
  exception) and `Outcome` (a `void` call that returned or threw).
- `page_model.dfy` — the annotations and the controller record that holds them,
  `AppDescriptor`, the `Services` record standing for the login state, the privilege check
  and the app registry, the two exception types with their reasons, and the `PageContext`
  class whose two output maps the guard writes.
- `interceptor.dfy` — `countNonNull` as a loop proved against `NonNullCount`; the decision
  as pure functions (`RequestAppIdFor` for lines 48-77, `ResolveApp` for lines 88-101,
  `Authorize` for both); `beforeHandleRequest` and `setRequestApp` as methods that take
  the page context and write its two maps, each proved to do what those functions decide and to change nothing but
  `currentApp`, and nothing at all when they throw.
- `interceptor_properties.dfy` — the guard's promises as lemmas, among them an
  order-free reference (`Admits`) whose accepted requests, with their app, the decision is
  proved to match; which exception a rejected request gets is fixed by separate lemmas.

The outside services are parameters: `Context.isAuthenticated()` is a `bool`,
`Context.hasPrivilege(name)` is membership in a set of privilege names, and
`AppFrameworkService.getAppById(id)` is lookup in a `map<string, AppDescriptor>`. The
inbound request attributes are a read-only map of strings; the outbound request
attributes and the model are maps the methods reassign.

The exception types are the code's own: an `appId` outside a shared page's list throws a
`RuntimeException` (line 75), the same type as the check against more than one
annotation (line 49), a missing `appId` (line 69) or an unknown app (line 94), not a
separate access-denied error; and a user lacking an app's privilege gets an
`APIAuthenticationException` (line 99), the same type as a missing login. The two authentication failures are told apart by
their reason (`LoginRequired`, `InsufficientPrivileges`); the four runtime failures by
theirs (`ConflictingAnnotations`, `MissingAppId`, `InvalidAppId`, `NoSuchApp`).

## Model

| member | source | states |
|---|---|---|
| Interceptor.NonNullCount | omod/src/main/java/org/openmrs/module/kenyaui/interceptor/PermissionCheckPageRequestInterceptor.java:108-121 | the number of non-null arguments lies between 0 and the argument count, and is 0 exactly when every argument is null |
| Interceptor.NonNullCountSnoc | omod/src/main/java/org/openmrs/module/kenyaui/interceptor/PermissionCheckPageRequestInterceptor.java:115-119 | one more argument raises the count by one exactly when it is non-null (the step of the loop) |
| Interceptor.NonNullCountAll | omod/src/main/java/org/openmrs/module/kenyaui/interceptor/PermissionCheckPageRequestInterceptor.java:108-121 | the count equals the argument count exactly when no argument is null |
| Interceptor.CountNonNull | omod/src/main/java/org/openmrs/module/kenyaui/interceptor/PermissionCheckPageRequestInterceptor.java:113-121 | the loop returns the number of non-null arguments, between 0 and the argument count, so the `int` cannot overflow |
| Interceptor.AnnotationCountConflicting | omod/src/main/java/org/openmrs/module/kenyaui/interceptor/PermissionCheckPageRequestInterceptor.java:44-48 | the count of the three annotations exceeds one exactly when two of them are present together |
| Interceptor.SetRequestApp | omod/src/main/java/org/openmrs/module/kenyaui/interceptor/PermissionCheckPageRequestInterceptor.java:87-106 | throws what the lookup and privilege check decide; on success sets `currentApp` to the same app (null for no id) in both maps, keeping every other key; on a throw changes neither map |
| Interceptor.BeforeHandleRequest | omod/src/main/java/org/openmrs/module/kenyaui/interceptor/PermissionCheckPageRequestInterceptor.java:41-80 | throws exactly what the decision says; on success both maps gain `currentApp` = the decided app and nothing else changes; on any throw the context is untouched |
| Interceptor.SetRequestAppTwice | omod/src/main/java/org/openmrs/module/kenyaui/interceptor/PermissionCheckPageRequestInterceptor.java:93-105 | two calls with the same id throw alike and leave the same context as a single call |
| InterceptorProperties.AuthorizeSucceedsIff | omod/src/main/java/org/openmrs/module/kenyaui/interceptor/PermissionCheckPageRequestInterceptor.java:48-101 | a request proceeds with a given app exactly when the order-free reference admits it: at most one annotation, a login unless public, the page's (or the allowed requested) app known and privileged, no app otherwise |
| InterceptorProperties.AuthorizeGrantsOnlyPrivilegedApps | omod/src/main/java/org/openmrs/module/kenyaui/interceptor/PermissionCheckPageRequestInterceptor.java:53-100 | any app made current belongs to a logged-in caller holding its privilege, and is the registry's entry for the annotation's id or for an allowed requested id |
| InterceptorProperties.CurrentAppIdIsEffectiveAppId | omod/src/main/java/org/openmrs/module/kenyaui/interceptor/PermissionCheckPageRequestInterceptor.java:60-91 | with a registry that files each app under its own id, the current app's id is the annotation's value on an app page and the requested `appId` on a shared page |
| InterceptorProperties.ConflictingAnnotationsIff | omod/src/main/java/org/openmrs/module/kenyaui/interceptor/PermissionCheckPageRequestInterceptor.java:48-50 | two or more annotations throw the annotation RuntimeException whatever the login, registry or request, and nothing else throws it |
| InterceptorProperties.LoginRequiredIff | omod/src/main/java/org/openmrs/module/kenyaui/interceptor/PermissionCheckPageRequestInterceptor.java:53-55 | "login required" is thrown exactly for a non-public, non-conflicting page and a caller not logged in |
| InterceptorProperties.LoginGateIgnoresRegistry | omod/src/main/java/org/openmrs/module/kenyaui/interceptor/PermissionCheckPageRequestInterceptor.java:48-55 | for a non-public page and a caller not logged in the request fails, and the outcome depends on neither the registry, the privileges nor the request |
| InterceptorProperties.NoAppIff | omod/src/main/java/org/openmrs/module/kenyaui/interceptor/PermissionCheckPageRequestInterceptor.java:57-90 | a request proceeds with a null current app exactly when the page is neither an app nor a shared page and is public or the caller is logged in |
| InterceptorProperties.PublicPageAdmitsAnyone | omod/src/main/java/org/openmrs/module/kenyaui/interceptor/PermissionCheckPageRequestInterceptor.java:53-57 | a page with only `@PublicPage` succeeds for every caller with a null current app |
| InterceptorProperties.UnannotatedPageNeedsLogin | omod/src/main/java/org/openmrs/module/kenyaui/interceptor/PermissionCheckPageRequestInterceptor.java:53-57 | a page with no annotation succeeds with a null app for a logged-in caller and throws "login required" otherwise |
| InterceptorProperties.AppPageIgnoresRequestAppId | omod/src/main/java/org/openmrs/module/kenyaui/interceptor/PermissionCheckPageRequestInterceptor.java:60-63 | an app page's app id is the annotation's value and never depends on the request's `appId` |
| InterceptorProperties.SharedPageAppId | omod/src/main/java/org/openmrs/module/kenyaui/interceptor/PermissionCheckPageRequestInterceptor.java:64-76 | for a shared page: a missing `appId` throws, an id outside a non-empty list throws, an allowed id (any id for an empty list) goes on to the lookup |
| InterceptorProperties.SharedPageEmptyListUnrestricted | omod/src/main/java/org/openmrs/module/kenyaui/interceptor/PermissionCheckPageRequestInterceptor.java:72-76 | a shared page with an empty list accepts any known, privileged app id and makes that app current |
| InterceptorProperties.ResolveAppSucceedsIff | omod/src/main/java/org/openmrs/module/kenyaui/interceptor/PermissionCheckPageRequestInterceptor.java:88-101 | an app id resolves exactly to the registry's app when it is known and its privilege is held; no id resolves to null |
| InterceptorProperties.ResolveAppFailures | omod/src/main/java/org/openmrs/module/kenyaui/interceptor/PermissionCheckPageRequestInterceptor.java:91-100 | an unknown id throws a RuntimeException; a known app without the privilege throws an APIAuthenticationException |
| InterceptorProperties.WithCurrentAppIdempotent | omod/src/main/java/org/openmrs/module/kenyaui/interceptor/PermissionCheckPageRequestInterceptor.java:104-105 | writing the same `currentApp` twice leaves the map a single write leaves |
| PageModel.WithCurrentApp | omod/src/main/java/org/openmrs/module/kenyaui/interceptor/PermissionCheckPageRequestInterceptor.java:103-105 | after the write `currentApp` is present holding the app, even a null one, and every other key keeps its value |
| PageModel.Services.GetAppById | omod/src/main/java/org/openmrs/module/kenyaui/interceptor/PermissionCheckPageRequestInterceptor.java:91 | the registry lookup returns the registered app, and null exactly for an unknown id |
| PageModel.PageContext.GetRequestAttribute | omod/src/main/java/org/openmrs/module/kenyaui/interceptor/PermissionCheckPageRequestInterceptor.java:66 | reading a request attribute gives its value, and null exactly when it is not set |
| PageModel.PageController.Annotations | omod/src/main/java/org/openmrs/module/kenyaui/interceptor/PermissionCheckPageRequestInterceptor.java:44-48 | the three annotation slots passed to the count, each non-null exactly when the controller carries that annotation |

## Left out

- `api/src/main/java/org/openmrs/module/kenyaui/KenyaUIActivator.java`: its six lifecycle callbacks only write log lines, so there is no behaviour to model.
- Reading the annotations by reflection on the controller's class: the controller is a record of three optional annotations.
- How `Context.hasPrivilege` decides (super-users, anonymous roles, empty privilege names): it is the set of privilege names it approves for the current user.
- A non-string `appId` request attribute, which makes the source's cast throw: inbound request attributes are strings here.
- The servlet container's own handling of a null attribute value: the model writes `currentApp` with a null app into both maps, as the source intends.
- The distinction between the page request and the underlying servlet request: one inbound and one outbound attribute map.
- Exception message texts beyond the app id they carry, and how the host maps the exceptions to HTTP statuses.
- Concurrency: the guard keeps no state between requests.
