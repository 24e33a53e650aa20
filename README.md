# Todo client: a verified model of its logic

This project models the logic of a React todo client (moclananh/Project_TodoApp_FE) in Dafny. It covers:

- the REST route table;
- the browser-storage session shared by `loginApi.getUser`, `AuthProvider` and the axios interceptors;
- the filter box and the filter cleaning on the todo page;
- the list, create and update envelope handling;
- the zod schemas of the login, sign-up and todo forms;
- the edit form's load-and-reset mapping and its view/edit gating;
- the todo card's tables.

Everything the client gets from outside is an input to the model rather than something it performs:

- what the server answers (`Http.Reply`, `Http.Settled`);
- the e-mail check (`isEmail`);
- `formatDate`;
- the `todoStatus` table;
- the current time (`now`).

## Layout

- **JavaScript values.** `js_values.dfy` (`JsValues`) defines JavaScript values:
  - `undefined`, `null`, booleans, integer numbers, `NaN`, strings, arrays, and objects as ordered property lists.
  - Property assignment (`Put`) and reading (`Get`, which gives a TypeError on null and undefined).
  - Truthiness, `String(v)`, `===`, and UTF-16 length.
- **Shared modules.**
  - `decimal.dfy`: decimal text of integers, and `Number(text)`.
  - `json.dfy`: `JSON.stringify` and `JSON.parse`, and their round trip.
  - `web_storage.dfy`: `localStorage` and `window.location`.
  - `http.dfy`: calls, replies, promise outcomes and the `{success, message, data}` envelope.
  - `zod.dfy`: the part of zod object schemas the forms use.
  - `ui.dfy`: toasts and callbacks.
- **One module per source file:** `todo_api.dfy`, `login_api.dfy`, `axios_custom.dfy`, `auth_context.dfy`, `filter_box.dfy`, `todo_page.dfy`, `register_form.dfy`, `login_form.dfy`, `todo_form.dfy`, `edit_form.dfy` and `todo_card.dfy`.
- **Stateful components are classes.** Their fields are the component state: `FilterBox.FilterBox`, `TodoPage.Page`, `AuthContext.AuthProvider`, `EditForm.EditTodoForm`, `WebStorage.Browser` and the axios `RequestConfig`. Each method is tied to a pure step function, and the lemmas are stated on those functions.

Behaviour of the code worth knowing:

- **Malformed stored user.** `loginApi.getUser` throws a SyntaxError when the stored `"user"` text is malformed, and every request then fails with it.
- **Create does not refresh the list.** After a successful create the todo page does not re-request the list.
- **No catch on create or list.** The create request in `TodoForm` and the list request in `TodoPage` have no catch. A rejected request, or an answer without an envelope, shows nothing.
- **No user, no request.** The request interceptor reads `.token` of `getUser()`, which is `null` when no user is stored. It therefore throws, and every request, the login request included, is rejected before it is sent (`AxiosCustom.NoUserNoRequest`, `LoginForm.LoggedOutLoginNotSent`).
- **Imports that TodoForm does not export.** `EditForm.jsx` imports `formatDate`, `TodoSchema` and `todoStatus` from `TodoForm.jsx`, and `FilterBox.jsx` imports `todoStatus`. `TodoForm.jsx` exports none of them. The model takes `formatDate` and `todoStatus` as parameters, and uses TodoForm's schema as `TodoSchema`.
- **The todo page passes no card handlers.** The page renders `TodoCard` without `onEdit` and `onDelete`, so every card button throws there (`TodoCard.PageCardsInert`).
- **The "token" key is never written.** `"token"` is what the route guards read, and nothing in the client writes it. `"user"` and `"authToken"` are independent keys.

## Model

| member | source | states |
|---|---|---|
| JsValues.Get | src/pages/TodoPage.jsx:33 | reading a property throws exactly on null and undefined, and gives an object's own value for a present key |
| JsValues.PutLookup | src/components/forms/EditForm.jsx:34-39 | after assigning k, k holds the new value and every other key its old one |
| Http.Dispatch | src/libs/axios-custom.js:29-44 | a 2xx answer resolves with that response; any other answer, or none, rejects with an AxiosError carrying the response if there was one |
| Http.ReadEnvelope | src/pages/TodoPage.jsx:33 | destructuring response.data throws a TypeError exactly when it is null or undefined; otherwise success, message and data are its properties |
| Http.ReadWrittenEnvelope | src/pages/TodoPage.jsx:33 | an envelope object with success, message and data reads back as those three values |
| Decimal.IntToStringRoundTrip | src/components/forms/EditForm.jsx:38 | Number of the decimal text of an integer gives back that integer |
| TodoApi.GetTodosRoute | src/apis/TodoApi.js:4 | getTodos(f) is GET /todo with params f and no body |
| TodoApi.CreateTodoRoute | src/apis/TodoApi.js:5 | createTodo(d) is POST /todo with body d and no params |
| TodoApi.UpdateTodoRoute | src/apis/TodoApi.js:6 | updateTodo(id, d) is PUT /todo/{String(id)} with body d |
| TodoApi.DeleteTodoRoute | src/apis/TodoApi.js:7 | deleteTodo(id) is DELETE /todo/{String(id)} with no body |
| TodoApi.GetByUserIdRoute | src/apis/TodoApi.js:8 | getByUserId(id, f) is GET /Todo/GetToDosByUserId/{String(id)} with params f |
| TodoApi.GetByIdRoute | src/apis/TodoApi.js:9 | getById(id) is GET /todo/{String(id)} |
| TodoApi.ItemRoutesAgree | src/apis/TodoApi.js:6-9 | get, update and delete of one id use the same path |
| TodoApi.ItemPathInjective | src/apis/TodoApi.js:6-9 | different numeric ids give different item paths |
| TodoApi.After | src/apis/TodoApi.js:6-9 | the server's prefix test: a path starts with the prefix exactly when it is prefix + rest |
| LoginApi.Login | src/apis/LoginApi.js:4 | login is POST /users/authenticate with its data unchanged as the body, and no params |
| LoginApi.Register | src/apis/LoginApi.js:5 | register is POST /users/register with its data unchanged as the body, and no params |
| LoginApi.GetUser | src/apis/LoginApi.js:6-9 | getUser is null when "user" is absent or empty; a parse failure is a SyntaxError |
| LoginApi.GetUserReadsOnlyUser | src/apis/LoginApi.js:7 | two storages that agree on "user" give the same getUser result |
| LoginApi.GetUserParses | src/apis/LoginApi.js:8 | a non-empty stored text yields what JSON.parse makes of it, or fails when that fails |
| LoginApi.GetUserAfterStringify | src/apis/LoginApi.js:8 | what JSON.stringify wrote under "user" reads back as the same value |
| Json.Stringify | src/components/forms/AuthContext.jsx:22 | JSON.stringify: undefined at the top gives undefined, anything else a non-empty text |
| Json.ParseStringify | src/components/forms/AuthContext.jsx:22 | JSON.parse(JSON.stringify(v)) == v for every value without undefined, NaN or duplicate names |
| Json.ValueRoundTrip | src/apis/LoginApi.js:8 | parsing the text of a value, followed by a rest that is empty or starts with a comma, `]` or `}`, gives back the value and that rest |
| Json.CharsRoundTrip | src/apis/LoginApi.js:8 | the escaped form of any string unescapes to that string |
| Json.NumberRoundTrip | src/apis/LoginApi.js:8 | the decimal text of an integer parses back to it |
| WebStorage.Item | src/apis/LoginApi.js:7 | getItem is the stored string exactly when the key is present, null otherwise |
| WebStorage.Browser.GetItem | src/apis/LoginApi.js:7 | reads the item and changes nothing |
| WebStorage.Browser.SetItem | src/components/forms/AuthContext.jsx:22 | that key now holds the value; everything else as before |
| WebStorage.Browser.RemoveItem | src/components/forms/AuthContext.jsx:28 | the key is gone; everything else as before |
| WebStorage.Browser.Navigate | src/components/forms/AuthContext.jsx:30 | only the location changes |
| AxiosCustom.RequestConfig.constructor | src/libs/axios-custom.js:5-7 | a config carries the call's verb, path, params and body, the base URL, and no headers |
| AxiosCustom.SessionToken | src/libs/axios-custom.js:13 | getUser().token: a TypeError when no user is stored; getUser's error passed on; the stored token otherwise |
| AxiosCustom.WithBearer | src/libs/axios-custom.js:16-18 | a truthy token sets Authorization to "Bearer " + token, a falsy one leaves the headers unchanged; no other header changes |
| AxiosCustom.InterceptRequest | src/libs/axios-custom.js:11-21 | throws exactly when reading the token throws; otherwise only the headers change, to WithBearer |
| AxiosCustom.OnRequestError | src/libs/axios-custom.js:22-25 | a request error is rejected unchanged |
| AxiosCustom.OnResponse | src/libs/axios-custom.js:30 | a successful response passes through unchanged |
| AxiosCustom.StorageAfterError | src/libs/axios-custom.js:33-36 | a 401 removes "user"; any other error leaves storage as it was |
| AxiosCustom.LocationAfterError | src/libs/axios-custom.js:33-39 | a 401 goes to /auth/login; any other error stays |
| AxiosCustom.OnResponseError | src/libs/axios-custom.js:31-43 | the storage and location after the error handler, and the error rejected as it came |
| AxiosCustom.Send | src/libs/axios-custom.js:10-44 | one request through both interceptors ends as Transfer says |
| AxiosCustom.NoUserNoRequest | src/libs/axios-custom.js:13 | with no stored user nothing is sent, the call is rejected with a TypeError, and the session is untouched |
| AxiosCustom.BearerSent | src/libs/axios-custom.js:16-18 | a truthy token is sent as the only header, Authorization: Bearer token |
| AxiosCustom.NoTokenNoHeader | src/libs/axios-custom.js:16-20 | a falsy token sends no Authorization header |
| AxiosCustom.SentAsCalled | src/libs/axios-custom.js:20 | what is sent has the call's verb, path, params and body |
| AxiosCustom.SuccessPassesThrough | src/libs/axios-custom.js:30 | a 2xx answer resolves with that response and leaves storage and location alone |
| AxiosCustom.UnauthorizedEndsSession | src/libs/axios-custom.js:33-42 | a 401 is rejected with that response, removes "user" and goes to /auth/login |
| AxiosCustom.OtherFailuresKeepSession | src/libs/axios-custom.js:33 | any other failure keeps storage and location and is rejected with the error that occurred |
| AxiosCustom.UnauthorizedThenLockedOut | src/libs/axios-custom.js:36 | after a 401 every further request is rejected before it is sent |
| AxiosCustom.StoreAuthToken | src/libs/axios-custom.js:47-55 | a truthy token is stored as String(token) under "authToken", a falsy one removes it |
| AxiosCustom.SetAuthToken | src/libs/axios-custom.js:47-55 | the storage becomes StoreAuthToken of the old one |
| AxiosCustom.GetAuthToken | src/libs/axios-custom.js:57-59 | what is stored under "authToken", or null |
| AxiosCustom.IsAuthenticated | src/libs/axios-custom.js:61-63 | true exactly when "authToken" holds a non-empty string; changes nothing |
| AxiosCustom.AuthTokenRoundTrip | src/libs/axios-custom.js:47-59 | after setAuthToken(t), getAuthToken gives String(t) for truthy t and null otherwise |
| AxiosCustom.AuthenticatedAfterSet | src/libs/axios-custom.js:47-63 | after setAuthToken(t), isAuthenticated holds exactly when t is truthy and String(t) is not empty; for anything but an array that is exactly truthiness |
| AxiosCustom.AuthTokenIndependentOfSession | src/libs/axios-custom.js:47-55 | setAuthToken never changes "user", so never the bearer token the interceptor sends |
| AuthContext.AuthProvider.constructor | src/components/forms/AuthContext.jsx:7 | the user state starts as null |
| AuthContext.MountStep | src/components/forms/AuthContext.jsx:10-18 | the mount effect never writes storage, and can fail only with a SyntaxError |
| AuthContext.AuthProvider.Mount | src/components/forms/AuthContext.jsx:10-18 | the provider's state after mount is MountStep's, or unchanged when parsing throws |
| AuthContext.AuthProvider.Login | src/components/forms/AuthContext.jsx:20-24 | the state after login(u) is LoginStep's: "user" holds JSON(u) and the user is u |
| AuthContext.AuthProvider.Logout | src/components/forms/AuthContext.jsx:26-31 | the state after logout is LogoutStep's: no "user", a null user, the login page |
| AuthContext.MountWithoutUser | src/components/forms/AuthContext.jsx:14-17 | with no stored user, mount goes to /auth/login and the user stays as it was |
| AuthContext.MountAgreesWithGetUser | src/components/forms/AuthContext.jsx:12-15 | a stored user is parsed into the state exactly as getUser reads it |
| AuthContext.LoginThenGetUser | src/components/forms/AuthContext.jsx:22-23 | after login(u), getUser gives u back and the state is u |
| AuthContext.LoginThenReload | src/components/forms/AuthContext.jsx:12-22 | after login(u) and a reload, mount restores u |
| AuthContext.LoginTouchesOnlyUser | src/components/forms/AuthContext.jsx:22 | login changes no key besides "user" and not the location |
| AuthContext.LogoutIdempotent | src/components/forms/AuthContext.jsx:26-31 | two logouts leave the same storage, location and state as one |
| AuthContext.LoginThenLogout | src/components/forms/AuthContext.jsx:22-28 | login then logout leaves no "user", the other keys as they were, and a null user |
| AuthContext.LogoutThenLockedOut | src/components/forms/AuthContext.jsx:28 | after logout the request interceptor throws for every request |
| AuthContext.LoginAuthorizes | src/components/forms/AuthContext.jsx:22 | logging in a user object with a truthy token makes that the token the interceptor sends |
| FilterBox.FilterBox.constructor | src/components/FilterBox.jsx:7-16 | starts closed, with the initial filter |
| FilterBox.InitialFilterDistinct | src/components/FilterBox.jsx:8-16 | the initial filter names title, priority, status, star, isActive, startDate and endDate once each, in that order |
| FilterBox.FilterBox.HandleOpen | src/components/FilterBox.jsx:19-21 | the anchor becomes the clicked element; the filter is unchanged |
| FilterBox.FilterBox.HandleClose | src/components/FilterBox.jsx:36-38 | the anchor becomes null; the filter is unchanged |
| FilterBox.FilterBox.HandleChange | src/components/FilterBox.jsx:43-49 | the filter becomes Changed(old filter, target); the anchor is unchanged |
| FilterBox.ChangedFields | src/components/FilterBox.jsx:45-48 | the named field gets checked for a checkbox and value otherwise; every other field keeps its value |
| FilterBox.ChangedShape | src/components/FilterBox.jsx:45-48 | changing an existing field keeps the field names and their order, and never duplicates a name |
| FilterBox.FilterBox.HandleApplyFilter | src/components/FilterBox.jsx:52-55 | passes the current filter unchanged to onFilter and closes the popover |
| FilterBox.FilterBox.HandleClearFilter | src/components/FilterBox.jsx:22-33 | restores the initial filter, passes {} to onFilter, and leaves the anchor unchanged |
| TodoPage.KeepDefined | src/pages/TodoPage.jsx:28 | no surviving entry is "", null or undefined, and there are no more entries than before |
| TodoPage.CleanedHasNoBlank | src/pages/TodoPage.jsx:28 | after cleaning no value is "", null or undefined |
| TodoPage.CleanLookup | src/pages/TodoPage.jsx:28 | every key whose value is not blank keeps that value, 0 and false included; blank keys are gone |
| TodoPage.CleanKeysSubsequence | src/pages/TodoPage.jsx:28 | the cleaned keys are a subsequence of the original keys, in the same order |
| TodoPage.CleanIdempotent | src/pages/TodoPage.jsx:28 | cleaning a cleaned filter returns it unchanged |
| TodoPage.CleanIsKeepDefined | src/pages/TodoPage.jsx:28 | Object.fromEntries rebuilds the filtered entries as they were |
| TodoPage.FromEntriesDistinct | src/pages/TodoPage.jsx:28 | Object.fromEntries of entries with distinct names gives those entries in order |
| TodoPage.KeepDefinedSubsequence | src/pages/TodoPage.jsx:28 | filtering the entries keeps a subsequence of their names |
| TodoPage.KeepDefinedLookup | src/pages/TodoPage.jsx:28 | a name survives the entry filter with its value exactly when that value is not blank |
| TodoPage.KeepDefinedIdempotent | src/pages/TodoPage.jsx:28 | entries with no blank value pass the filter unchanged |
| TodoPage.KeepDefinedDistinct | src/pages/TodoPage.jsx:28 | filtering keeps names distinct |
| TodoPage.CleanInitialFilter | src/pages/TodoPage.jsx:28 | cleaning the box's initial filter leaves exactly status 0, star false and isActive true |
| TodoPage.ListStep | src/pages/TodoPage.jsx:31-40 | the list is either kept or replaced by the envelope's data |
| TodoPage.ListFailureKeepsTodos | src/pages/TodoPage.jsx:34-37 | success false keeps the list and shows exactly message as an error |
| TodoPage.ListSuccessReplaces | src/pages/TodoPage.jsx:38 | success true replaces the list wholesale with data and shows nothing |
| TodoPage.ListErrorIgnored | src/pages/TodoPage.jsx:32-33 | a rejected request or a missing envelope changes nothing and shows nothing |
| TodoPage.EmptyMessageAfterList | src/pages/TodoPage.jsx:79 | after a successful list, "No todo found" shows exactly when the server sent no todos |
| TodoPage.FilterBoxRequests | src/pages/TodoPage.jsx:27-40 | clearing the box requests /todo with {}; applying the initial filter requests it with status, star and isActive only |
| TodoPage.Page.constructor | src/pages/TodoPage.jsx:15-20 | no todos, the dialog closed, no current todo, not editing, no filter |
| TodoPage.Page.ListRequest | src/pages/TodoPage.jsx:32 | the list effect requests getTodos with the current filter |
| TodoPage.Page.HandleFilter | src/pages/TodoPage.jsx:27-30 | stores the cleaned filter as a new object and requests the list with it; nothing else changes |
| TodoPage.Page.ReceiveList | src/pages/TodoPage.jsx:32-39 | the list and toast become ListStep's; nothing else changes |
| TodoPage.Page.HandleCloseDialog | src/pages/TodoPage.jsx:21-25 | the dialog closes, the current todo becomes {}, and editing is off; the list and filter are unchanged |
| TodoPage.Page.OpenAddDialog | src/pages/TodoPage.jsx:60-63 | the dialog opens in add mode; nothing else changes |
| RegisterForm.UsernameAccepted | src/components/forms/RegisterForm.jsx:7-11 | a username passes exactly when it has 3 to 20 characters, each a letter, digit or underscore |
| RegisterForm.PasswordAccepted | src/components/forms/RegisterForm.jsx:13-18 | a password passes exactly when it has 8 or more units and an upper-case letter, a lower-case letter and a digit |
| RegisterForm.SignupIssues | src/components/forms/RegisterForm.jsx:5-24 | no error exactly when username, e-mail, password and confirmation all pass |
| RegisterForm.MismatchReported | src/components/forms/RegisterForm.jsx:21-24 | a confirmation that differs reports "Passwords don't match" on confirmPassword, and the submit fails |
| RegisterForm.Without | src/components/forms/RegisterForm.jsx:43 | the rest of a destructuring has no more properties than the object |
| RegisterForm.WithoutLookup | src/components/forms/RegisterForm.jsx:43 | the rest object lacks the removed name and keeps every other property |
| RegisterForm.PayloadOmitsConfirmation | src/components/forms/RegisterForm.jsx:41-43 | a valid submit gives username, e-mail and password, without confirmPassword |
| RegisterForm.DefaultsRefused | src/components/forms/RegisterForm.jsx:33-38 | the empty defaults fail on username and password, so the submit fails |
| RegisterForm.Utf16LengthAscii | src/components/forms/RegisterForm.jsx:9-10 | for ASCII text zod's length is the character count |
| LoginForm.EmailError | src/components/forms/LoginForm.jsx:8 | an e-mail fails exactly when the e-mail check rejects it |
| LoginForm.PasswordError | src/components/forms/LoginForm.jsx:9-11 | a password fails exactly when it is empty, with "Password must be at least 1 characters" |
| LoginForm.LoginIssues | src/components/forms/LoginForm.jsx:7-12 | no error exactly when the e-mail passes and the password is non-empty |
| LoginForm.DefaultsRefused | src/components/forms/LoginForm.jsx:21-24 | the empty defaults fail on both fields |
| LoginForm.SubmitPostsCredentials | src/components/forms/LoginForm.jsx:27-28 | a valid submit posts exactly the e-mail and password to /users/authenticate |
| LoginForm.SubmitWritesNoSession | src/components/forms/LoginForm.jsx:28-30 | however the login request ends, "user" is never written; storage changes only when the request was sent and answered 401, and then only "user" is removed |
| LoginForm.LoggedOutLoginNotSent | src/components/forms/LoginForm.jsx:28 | with no stored user the login request is rejected before it is sent |
| Zod.FieldIssue | src/components/forms/TodoForm.jsx:8-17 | a field passes exactly when its value has the type, or is undefined and the field is optional; "Required" exactly for a missing required value |
| Zod.Issues | src/components/forms/TodoForm.jsx:8-17 | no issue exactly when every field of the shape passes |
| Zod.Output | src/components/forms/TodoForm.jsx:8-17 | every parsed key is a shape field present in the data |
| Zod.OutputLookup | src/components/forms/TodoForm.jsx:8-17 | a parsed field has its value from the data; keys outside the shape are stripped |
| Zod.ParsedLookup | src/components/forms/TodoForm.jsx:8-17 | a successful parse keeps every shape field's value and drops every other key |
| Zod.ParseMatching | src/components/forms/TodoForm.jsx:8-17 | data holding exactly the shape's fields, in order and typed, parses to itself |
| Zod.IssueReported | src/components/forms/TodoForm.jsx:8-17 | every failing field is reported under its own name |
| TodoForm.SchemaFields | src/components/forms/TodoForm.jsx:8-17 | title is a required string; every other field is optional |
| TodoForm.SchemaNames | src/components/forms/TodoForm.jsx:8-17 | the schema's fields are title, description, status, priority, createdDate, endDate, star, isActive |
| TodoForm.StartDateUnnamed | src/components/forms/TodoForm.jsx:85 | the form's startDate input is no field of the schema |
| TodoForm.TitleRules | src/components/forms/TodoForm.jsx:9 | the empty title passes; a missing title is reported "Required" |
| TodoForm.DefaultsTyped | src/components/forms/TodoForm.jsx:21-30 | each default sits at its field's position with its field's type |
| TodoForm.DefaultsValid | src/components/forms/TodoForm.jsx:21-30 | the defaults pass the schema and are posted as they are |
| TodoForm.SubmitStripsUnknown | src/components/forms/TodoForm.jsx:32-33 | the create body holds the schema fields as the form had them, and no startDate |
| TodoForm.CreateRefused | src/components/forms/TodoForm.jsx:35-38 | success false shows exactly message as an error and leaves the dialog open |
| TodoForm.CreateSaved | src/components/forms/TodoForm.jsx:39-40 | success true shows message as a success, then closes the dialog |
| TodoForm.CreateOutcomes | src/components/forms/TodoForm.jsx:33-41 | at most one toast; the dialog closes exactly on success; nothing happens on rejection or a missing envelope |
| TodoForm.LabelsAgree | src/components/forms/TodoForm.jsx:46 | "Edit Todo" goes with "Update", and "Add New Todo" with "Add" |
| EditForm.UserId | src/components/forms/EditForm.jsx:25 | with no stored user the destructuring throws a TypeError; otherwise the user's id |
| EditForm.NoUserNoForm | src/components/forms/EditForm.jsx:25 | without a stored user the form cannot be built |
| EditForm.LoadRequest | src/components/forms/EditForm.jsx:29-30 | the load is issued exactly when todoId !== null or !id, as getById(todoId) |
| EditForm.NullIdLoads | src/components/forms/EditForm.jsx:29-30 | with no user id, a null todoId is loaded from /todo/null; with a user id it is not loaded |
| EditForm.FindKey | src/components/forms/EditForm.jsx:33 | findKey: the first key whose value is === v, or none exactly when no value is |
| EditForm.ResetValues | src/components/forms/EditForm.jsx:32-39 | the reset fails exactly when the loaded todo is null or undefined |
| EditForm.ResetFields | src/components/forms/EditForm.jsx:34-39 | the reset keeps every field of the todo, with the dates formatted and status replaced by the table's key |
| EditForm.StatusFromTable | src/components/forms/EditForm.jsx:38 | a status found under key String(n) becomes the number n |
| EditForm.NaNStatusRefused | src/components/forms/EditForm.jsx:57 | a NaN status is reported by the schema, so no update is sent |
| EditForm.UnknownStatusBlocksUpdate | src/components/forms/EditForm.jsx:33-38 | a status missing from the table becomes NaN, and the reset values cannot be submitted |
| EditForm.LoadStep | src/components/forms/EditForm.jsx:30-47 | at most the one load error is shown, and after it the values are unchanged |
| EditForm.LoadOutcomes | src/components/forms/EditForm.jsx:30-47 | nothing is shown exactly when the answer has data and the reset succeeds, and then the values are the reset values |
| EditForm.EditTodoForm.constructor | src/components/forms/EditForm.jsx:25-69 | given a storage whose user id can be read, the form starts with the defaults, userId that stored id, and not loading |
| EditForm.EditTodoForm.Load | src/components/forms/EditForm.jsx:28-49 | the request is LoadRequest's; when sent, the values and toast are LoadStep's and loading ends |
| EditForm.UpdateStripsUnknown | src/components/forms/EditForm.jsx:71-72 | the update goes to /todo/{todoId} with only schema fields, so without startDate or userId |
| EditForm.UpdateRefused | src/components/forms/EditForm.jsx:75-78 | success false shows exactly message, and neither callback runs |
| EditForm.UpdateSaved | src/components/forms/EditForm.jsx:79-81 | success true shows message, then calls onSuccess, then closeDialog |
| EditForm.UpdateFailed | src/components/forms/EditForm.jsx:83-85 | a rejection or a missing envelope shows "Error updating todo. Please try again." |
| EditForm.UpdateOneToast | src/components/forms/EditForm.jsx:71-86 | every update ends in exactly one toast; onSuccess and closeDialog run together, exactly on success |
| EditForm.ViewGating | src/components/forms/EditForm.jsx:91-166 | every input is disabled exactly when not in edit mode, which is when there is no submit button |
| TodoCard.ArrayElement | src/components/card/todo-card.jsx:20 | indexing a table gives one of its entries or no string at all |
| TodoCard.PriorityTable | src/components/card/todo-card.jsx:17-20 | priorities 0 to 5 take the label and the colour at that position |
| TodoCard.PriorityColours | src/components/card/todo-card.jsx:17 | the colour is success for 0, warning for 1 and error for 2 to 5 |
| TodoCard.PriorityOutOfRange | src/components/card/todo-card.jsx:17-20 | a number outside 0 to 5, null or undefined has no label and no colour |
| TodoCard.Card | src/components/card/todo-card.jsx:14-63 | the star is filled exactly when star is truthy; "Active"/success or "Inactive"/default follows isActive; the status shows raw |
| TodoCard.Click | src/components/card/todo-card.jsx:77-83 | a click throws exactly when its handler is missing |
| TodoCard.ClickTargets | src/components/card/todo-card.jsx:77-83 | Edit passes the whole record to onEdit; Delete and Archive both pass todo.id to onDelete |
| TodoCard.PageCardsInert | src/pages/TodoPage.jsx:84 | on the todo page every card button throws a TypeError |
| Ui.ToastCount | src/components/forms/EditForm.jsx:71-86 | the number of notifications: no more than the effects, and zero exactly when no effect is a toast |

## Left out

- Rendering is not modelled: MUI layout and styling, toast presentation, `console.log`, the random card colour (`todo-card.jsx:8-11`), and the hard-coded pagination `count={10}`.
- Asynchrony is not modelled. Requests settle in one step, and how they settled is an input; there are no overlapping requests.
- The real axios and network are not modelled:
  - combining `baseURL` with a path;
  - serializing query params and JSON bodies;
  - headers other than `Authorization`.
- Dates are not modelled. `new Date()`, `toISOString`, `toLocaleDateString` and `formatDate` become parameters (`now`, `formatDate`).
- Numbers are integers, plus `NaN`. Fractions, infinities and `-0` are absent. `Number(text)` reads optionally signed decimal integers only; whitespace, hexadecimal and exponents are not covered.
- JavaScript puts integer-like property keys first in an object; the model keeps insertion order for every key. This touches lodash `findKey`, `Object.entries`, and the spread in the edit form's reset.
- Spreading a string into an object is not modelled: only objects contribute properties.
- `===` on arrays and objects is reference equality. No two such values are equal in the model, not even the same value.
- JSON text with a fraction or exponent in a number (`{"id":1.5}`), or with a `\u` escape of a UTF-16 surrogate (`\uD800` to `\uDFFF`, which a character outside the Basic Multilingual Plane is escaped as, in pairs), is a SyntaxError in the model, while JavaScript parses it. A stored user holding such text therefore makes every request fail in the model but not in the browser.
- Number size and precision are not modelled. `Num` is an exact integer of any size, while JavaScript numbers are doubles: integers above 2^53 round, and `String(1e21)` is `"1e+21"`, where the model writes plain digits.
- JSON covers the modelled values only. There is no `toJSON`, no replacer, no whitespace options and no prototype properties. The round trip needs values without `undefined`, `NaN` or duplicate names.
- zod covers the checks the forms use, and reports the first issue per field, which is what react-hook-form shows. Coercion and parsing a non-object are left out. The number of issues zod collects behind the first one is left out too.
- The e-mail syntax check is a parameter (`isEmail`), because its code belongs to zod.
- LoginForm.DefaultsRefused: the e-mail half assumes that the check rejects the empty string, since the check is a parameter.
- `RegisterForm` sends nothing to the back end: its submit only logs the payload. The model computes the payload.
- `EditForm`: `onSuccess` and `closeDialog` are taken not to throw. `isLoading` is only ever set to false, exactly as written.
- The route guards (`PrivateRoutes.jsx`, `AuthLayout.jsx`) and the app wiring (`App.jsx`, `main.jsx`, `AppLayout.jsx`) are not part of this model. The `"token"` key they read appears only as the constant `WebStorage.TokenKey`.
- Which input names the filter box renders is not modelled: `handleChange` accepts any target.
