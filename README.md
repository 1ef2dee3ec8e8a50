# Task manager: ownership-gated tasks, credential handling and client guards

A Dafny model of the request handling of a small task manager (an Express
API server and a React client) and proofs about it.

- **Task table** (`TaskController`): tasks keyed by id, each with a title,
  an `isCompleted` flag, an owner and a creation time. List returns the
  requester's tasks newest first. Create stores the title as sent. Delete and
  update answer 404 for an absent id, then 401 for a non-owner, and only
  then change the table. Update is partial: a title is applied only when it
  is truthy (so `""` is skipped), `isCompleted` whenever it is present (so
  `false` is applied). The pure functions `Check`, `AfterDelete`,
  `AfterUpdate` and `Step` give each handler's outcome on a table value; the
  class `TaskTable` performs the handlers on a mutable map and is proved to
  agree with them. `OthersTasksUntouched` shows that no sequence of requests
  by one user changes or removes another user's task.
- **Credentials** (`AuthController`): a user collection with register,
  login, getMe and updatePassword. bcrypt is modelled by its shape: a
  hash records cost 10, its salt and a digest computed by a key-derivation
  function given as a parameter; `Compare` recomputes the digest with the
  stored salt. A token is modelled by its claims: the user id and an expiry
  3600 seconds after issue.
- **Validation wiring** (`AuthRoutes`): the express-validator rule arrays as
  data, `isStrongPassword` as counting over abstract character classes,
  the middleware chain of each route, and the four routes as methods that
  run the authentication gate and the validators before the handler.
- **Client guards** (`RegisterPage`, `ProfilePage`, `DashboardHome`): the
  client password regex read off its lookaheads, the register and
  change-password submit guards, and the dashboard's optimistic list updates
  (filter-by-id delete, map-by-id toggle and retitle, snapshot rollback)
  with its edit mode.

Inputs the source takes from outside are parameters: the requester's id
(resolved by the authentication middleware), the current time, the salt a
hashing call draws, the key-derivation function, the validator library's
email check and character classes, and, on the client, whether a request
succeeded and what a reload fetched.

The handlers behave as follows at three edges, and the model does the same:
`getMe` answers the lookup's `null` with status 200 when the id resolves to no
user; `updatePassword` for such an id fails reading the password of `null`
and answers 500; `createTask` does no check of its own on the title.
Task ids and user ids are natural numbers, handed out by a
counter (tasks) or by position (users, who are never deleted).

## Model

| member | source | states |
|---|---|---|
| TaskController.NewTask | server/controllers/taskController.js:26-31 | a created task is owned by the requester, carries the request title unchanged, is not completed and is stamped with the creation time |
| TaskController.FieldsOf | server/controllers/taskController.js:71-73 | the title is set exactly when it is present and non-empty; the completion flag exactly when it is present, false included |
| TaskController.Apply | server/controllers/taskController.js:86-90 | an update never changes id, owner or creation time; a field it sets takes the value sent, and a field it does not set keeps its value |
| TaskController.Check | server/controllers/taskController.js:46-52 | 404 exactly when the id is absent, 401 exactly when it exists with another owner, 200 exactly when the requester owns it |
| TaskController.AfterDelete | server/controllers/taskController.js:44-55 | a refused delete leaves the table unchanged; an owner's delete removes exactly that id and keeps every other record |
| TaskController.AfterUpdate | server/controllers/taskController.js:76-90 | the ids are unchanged, every other record is unchanged, a refused update changes nothing, an owner's update applies the fields to that record |
| TaskController.OthersTasksUntouched | server/controllers/taskController.js:44-90 | after any sequence of requests by one user, every task owned by someone else is present and unchanged, no task changes owner, and every new task belongs to that user |
| TaskController.UpdateAsymmetry | server/controllers/taskController.js:71-73 | an empty title leaves the title as it was, a non-empty one replaces it, and `isCompleted: false` is applied |
| TaskController.UpdateIdempotent | server/controllers/taskController.js:86-90 | sending the same update twice leaves the table as sending it once |
| TaskController.TaskTable.GetTasks | server/controllers/taskController.js:8-12 | the result holds exactly the requester's stored tasks, each once, ordered by creation time newest first |
| TaskController.TaskTable.CreateTask | server/controllers/taskController.js:24-32 | the new record is stored under an id not in use and returned; the other records are unchanged |
| TaskController.TaskTable.DeleteTask | server/controllers/taskController.js:44-55 | the status and the new table are those of Check and AfterDelete on the old table; the answer is 404 'Task not found', 401 'Not authorized' or 200 'Task removed' accordingly |
| TaskController.TaskTable.UpdateTask | server/controllers/taskController.js:67-92 | builds the fields from the body, answers with Check's status, leaves the table as AfterUpdate says; a refusal answers 404 'Task not found' or 401 'Not authorized', a success the record after the update |
| AuthController.Hash | server/controllers/authController.js:28-29 | the stored hash carries cost 10 and the salt drawn for it |
| AuthController.Compare | server/controllers/authController.js:58 | a password matches a stored hash when its digest under the hash's own cost and salt is the stored digest; CompareHash states what follows from it |
| AuthController.CompareHash | server/controllers/authController.js:58-59 | a hash matches the password it was made from under any salt, and under collision freedom matches no other |
| AuthController.Sign | server/controllers/authController.js:34-38 | the token carries the user id and expires 3600 seconds after it is issued |
| AuthController.FindByEmail | server/controllers/authController.js:21 | finds the first user with the email, or none exactly when no user has it |
| AuthController.UserTable.Register | server/controllers/authController.js:11-43 | validation errors answer 400 with the whole list and store nothing; a known email answers 400 'User already exists' and stores nothing; otherwise exactly one user is appended whose stored password is a hash that matches the plaintext, and the answer is a token for the new id with id, name and email only |
| AuthController.UserTable.Login | server/controllers/authController.js:50-71 | every failure is the same 400 'Invalid Credentials'; success happens exactly when some user has the email and the password matches its hash, and answers the token of that user and its id, name and email |
| AuthController.UserTable.GetMe | server/controllers/authController.js:78-87 | answers the record without its password exactly when the id resolves, and null otherwise |
| AuthController.UserTable.UpdatePassword | server/controllers/authController.js:94-121 | validation errors answer 400 and change nothing; an unresolved id or a missing current password answers 500; a wrong current password answers 400 'Current password is incorrect' and keeps the hash; otherwise only that user's hash is replaced by one matching the new password and the answer is a message without a token |
| AuthRoutes.CountPositiveIff | server/routes/authRoutes.js:9-15 | a class counted at least once is a class some character of the password belongs to, and conversely |
| AuthRoutes.IsStrongPassword | server/routes/authRoutes.js:9-15 | a password is strong when its length and each class count reach the minimum of the options; PasswordPolicy states it for the routes' options |
| AuthRoutes.PasswordPolicy | server/routes/authRoutes.js:8-15 | the strength rule holds exactly for passwords of 8 or more characters with a lower-case letter, an upper-case letter, a number and a symbol |
| AuthRoutes.RunRules | server/routes/authRoutes.js:28-36 | the error list is empty exactly when every rule passes; every failing rule is listed, and every listed error belongs to a failing rule |
| AuthRoutes.RegisterValidationIff | server/routes/authRoutes.js:28-32 | registration validates exactly when the name is non-empty, the email well formed and the password strong |
| AuthRoutes.PasswordUpdateValidationIff | server/routes/authRoutes.js:18-36 | password update validates exactly when `newPassword` meets the same rule as `password`, whatever `oldPassword` is |
| AuthRoutes.Chain | server/routes/authRoutes.js:39-42 | each chain ends in the handler; only `/me` and `/update-password` are gated, and the gate comes first; only `/register` and `/update-password` are validated |
| AuthRoutes.Register | server/routes/authRoutes.js:39 | the route never answers the gate's 401; validation errors answer 400 with the list and store nothing, a weak password among them; a token is issued only for a non-empty name, a well-formed email and a strong password; once validation passes, a known email answers 400 'User already exists' and stores nothing, and a fresh one appends exactly the new user with a hash of the password and answers its token and profile |
| AuthRoutes.Login | server/routes/authRoutes.js:40 | with no gate and no validation, the answer is the handler's: a token exactly when email and password match a user, else the single invalid-credentials reply; a token is signed for the id of the user with that email whose hash matches the password, and comes with that user's id, name and email |
| AuthRoutes.Me | server/routes/authRoutes.js:41 | the gate answers 401 before the handler exactly when there is no identity; with one, the answer is the user's record or null |
| AuthRoutes.UpdatePassword | server/routes/authRoutes.js:42 | the gate answers 401 exactly when there is no identity, and nothing changes; a weak new password answers 400 with exactly the `newPassword` error and nothing changes; past the gate and the validator, an unresolved id or a body without `oldPassword` answers 500, a wrong current password 400 'Current password is incorrect', both changing nothing, and a matching one replaces only that user's hash by one of the new password and answers the success message |
| RegisterPage.ValidatePassword | client/src/pages/Auth/Register.jsx:12-15 | the regex test as its four lookaheads, the length bound and the anchored alphabet class; ValidatePasswordIff states what it accepts |
| RegisterPage.ValidatePasswordIff | client/src/pages/Auth/Register.jsx:12-15 | the regex accepts exactly the strings of 8 or more characters from `A-Za-z0-9@$!%*?&` that contain a lower-case letter, an upper-case letter, a digit and one of `@$!%*?&` |
| RegisterPage.HashSignRefused | client/src/pages/Auth/Register.jsx:13 | `Aa1#aaaa` fails the regex |
| RegisterPage.ClientStrongIsServerStrong | client/src/pages/Auth/Register.jsx:13 | when the server's classes agree with the regex's, every password the client accepts passes the server's rule |
| RegisterPage.ServerAcceptsWhatClientRefuses | client/src/pages/Auth/Register.jsx:13 | when the server counts `#` as a symbol, it accepts `Aa1#aaaa`, which the client refuses |
| RegisterPage.HandleSubmit | client/src/pages/Auth/Register.jsx:17-30 | `register` is called exactly when the password passes the regex, with the form's name, email and password |
| ProfilePage.WithField | client/src/pages/Dashboard/Profile.jsx:16-18 | the named field takes the new value and the other two are unchanged |
| ProfilePage.Decide | client/src/pages/Dashboard/Profile.jsx:20-35 | a weak new password is refused first; then a differing confirmation is refused; `updatePassword` is called exactly when both guards pass, with old and new password in that order |
| ProfilePage.StrengthCheckedFirst | client/src/pages/Dashboard/Profile.jsx:25-33 | a weak new password gets the weakness message whether or not the confirmation matches |
| ProfilePage.ProfileForm.HandleChange | client/src/pages/Dashboard/Profile.jsx:16-18 | the state becomes WithField of the old state |
| ProfilePage.ProfileForm.HandleSubmit | client/src/pages/Dashboard/Profile.jsx:20-47 | decides as Decide on the old state; the three fields are cleared only after a call that succeeded, and are kept otherwise |
| DashboardHome.RemoveById | client/src/pages/Dashboard/DashboardHome.jsx:54 | the result holds exactly the tasks with another id, each as often as before |
| DashboardHome.RemoveByIdAppend | client/src/pages/Dashboard/DashboardHome.jsx:54 | removal distributes over concatenation, so the kept tasks stay in order |
| DashboardHome.RemoveByIdAbsent | client/src/pages/Dashboard/DashboardHome.jsx:54 | a list without the id is returned as it is |
| DashboardHome.SetCompletedById | client/src/pages/Dashboard/DashboardHome.jsx:71-73 | the length is kept, tasks with another id are unchanged, matching tasks get the new flag and keep every other field |
| DashboardHome.RetitleById | client/src/pages/Dashboard/DashboardHome.jsx:101-103 | the length is kept, tasks with another id are unchanged, matching tasks get the new title and keep every other field |
| DashboardHome.ToggleFlips | client/src/pages/Dashboard/DashboardHome.jsx:65-73 | toggling a card flips exactly its completion flag |
| DashboardHome.OptimisticToggleMatchesServer | client/src/pages/Dashboard/DashboardHome.jsx:71-77 | the optimistic toggle of a card equals the server's update of that record from the same `isCompleted` body |
| DashboardHome.OptimisticRetitleMatchesServer | client/src/pages/Dashboard/DashboardHome.jsx:98-106 | for a title that passed the blank guard, the optimistic retitle of a card equals the server's update of that record from the same `title` body |
| DashboardHome.Dashboard.FetchTasks | client/src/pages/Dashboard/DashboardHome.jsx:20-27 | a successful fetch replaces the list, a failed one keeps it |
| DashboardHome.Dashboard.AddTask | client/src/pages/Dashboard/DashboardHome.jsx:36-47 | a blank title sends nothing and changes nothing; otherwise the untrimmed title is sent, and on success the input is cleared and the list reloaded |
| DashboardHome.Dashboard.DeleteTask | client/src/pages/Dashboard/DashboardHome.jsx:50-61 | without confirmation nothing happens; otherwise the id is removed at once, and a failed request reloads the list |
| DashboardHome.Dashboard.ToggleStatus | client/src/pages/Dashboard/DashboardHome.jsx:64-84 | sends the negated flag; on success the list is toggled, on failure it is exactly the snapshot taken before |
| DashboardHome.Dashboard.StartEditing | client/src/pages/Dashboard/DashboardHome.jsx:87-90 | edit mode takes the task's id and title |
| DashboardHome.Dashboard.CancelEditing | client/src/pages/Dashboard/DashboardHome.jsx:92-95 | edit mode is reset to no id and an empty title |
| DashboardHome.Dashboard.SaveEdit | client/src/pages/Dashboard/DashboardHome.jsx:97-112 | a blank title does nothing; otherwise the matching task is retitled at once, edit mode is left, and a failed request reloads the list |
| JsStrings.Trim | client/src/pages/Dashboard/DashboardHome.jsx:38 | `trim()` returns a contiguous slice of the string, everything cut off before and after it is white space, and a non-empty result starts and ends with a character that is not |
| JsStrings.IsBlank | client/src/pages/Dashboard/DashboardHome.jsx:38 | the guard `!title.trim()`: the trimmed title is empty; BlankIffAllWhiteSpace states which strings those are |
| JsStrings.BlankIffAllWhiteSpace | client/src/pages/Dashboard/DashboardHome.jsx:38 | `title.trim()` is empty exactly when every character is ECMAScript white space or a line terminator |
| JsStrings.NotBlankIsTruthy | client/src/pages/Dashboard/DashboardHome.jsx:98 | a title that passes the blank guard is non-empty, so the server applies it |

## Left out

- bcrypt internals (salt generation, the digest, timing-safe comparison): the key-derivation function is a parameter and collision freedom an assumption (`CollisionFree`) used only in `CompareHash`. The real bcrypt reads only the first 72 bytes of a password and the strength rule sets no upper length, so two long passwords sharing those bytes compare equal and `CollisionFree` does not hold of it; the model does not capture that truncation.
- jsonwebtoken internals (encoding, signature, secret) and token verification in the authentication middleware, which is not part of this model: a route receives the resolved identity as an optional user id. The round trip from a token back to its user id is therefore not stated.
- The Task and User schemas are not part of this model: the default `isCompleted = false`, the creation time taken from the clock, and exact string comparison of emails are assumptions.
- MongoDB and Mongoose: each handler is one atomic step on a map or sequence; ids are counters; the 500 branches of failing store calls and of a failing `jwt.sign` callback are not modelled. Concurrent requests and their last-write-wins races are not modelled.
- Request bodies whose fields are not strings or booleans (JSON numbers, objects, `null`), and a login body missing its email or password (the store lookup and bcrypt treat `undefined` otherwise than ""): fields are strings, and a missing field reads as "" in the validators and at login. A password update without `oldPassword` is modelled: bcrypt refuses the undefined password and the handler answers 500, an assumption about the library, whose source is not part of this model.
- express-validator: results carry only the field path and message (not the value or location), the rules read only the request body (`check` also looks at cookies, headers, parameters and query), and `isEmail` and the character classes of `isStrongPassword` are parameters.
- AuthRoutes.IsStrongPassword, AuthRoutes.PasswordPolicy: lengths are counted in Unicode scalar values, not UTF-16 code units as JavaScript's `length` does.
- Task routes (`server/routes/taskRoutes.js`): every task handler is authenticated, which the task model takes as given by receiving the requester's id.
- Client rendering, routing, toasts, `window.confirm` (a boolean parameter), the `AuthContext` network calls and local storage, the keyboard shortcuts of the edit box, navigation after registering, and the unused `status` state of the profile page.
- DashboardHome.Dashboard.AddTask, DeleteTask, SaveEdit: the reload that `fetchTasks` performs is applied at once; in the client it completes later and may interleave with other updates.
