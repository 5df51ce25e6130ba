# Self-service cloud portal: identity, session gate and audit dispatch

This project models the core of a small Streamlit portal (`app.py`). Users register and log in
against a SQLite `users` table that stores bcrypt hashes. A logged-in session can then press
"create" or "list" on one of four mock cloud backends: AWS, OpenStack, GCP and Azure. Every
create is written to a `logs` audit table, and the session can view that table.

The model has six modules:

- `Wrappers`: the `Option` and `Result` datatypes.
- `Hashing`: an idealised bcrypt. `HashPw(secret, salt)` produces a digest that `CheckPw` accepts for that secret and for no other. The random salt is a parameter.
- `Providers`: the eight mock backend functions: the create mocks return a record (a map from field name to value), the list mocks a list of one record. It also holds the closed platform set: the `if`/`elif` chain on the radio label, the audit label per platform, and the fixed arguments the dashboard passes.
- `Tables`: the two tables as values. `users` is a map from user name to hash; the UNIQUE column becomes the map's keys, and a duplicate insert becomes an `IntegrityError` result. `logs` is a sequence in insertion order. The module also holds `validate_user`.
- `AppSpec`: the portal as a pure state machine. `State` holds both tables and the session. Streamlit re-executes the whole script on each interaction, so `Step` models one execution (`setup_database()` and then `main()`), and `Run` models a sequence of them. Over any sequence of executions, from any state, the audit log only grows at its end and no stored credential changes. Every state reached from a fresh database keeps the invariant that a logged-in session and every audit record name a registered user.
- `App`: the class `Portal`. It reproduces the program's own state in place: `users`, `logs`, `loggedIn` and `username` are fields. Its methods update those fields step by step, and each method is proved to produce the state the matching `AppSpec` function gives.

Inputs that the program reads from the outside are parameters of the model:
- the form fields and which buttons were pressed (`AuthForm`, `DashboardForm`);
- the bcrypt salts, which come from `gensalt()`.

The screen output is a value: a message from the authentication form (`AuthMessage`) and what the dashboard shows (`View`).

One `Rerun` value may press several buttons in the same execution: the authentication button together with create, list and view logs, and a dashboard button in the same execution as a successful login. In Streamlit one click triggers one execution, and dashboard buttons that first appear in the login execution are not pressed. The model therefore admits more inputs than the program produces, and every property proved over all `Rerun` values holds in particular for the ones the program produces.

In these places the model keeps the code's behaviour as written:
- An unknown platform label reaches no branch of the dispatch chain. Nothing happens, and no error is reported.
- `admin` is seeded when no `admin` row exists, whatever other users the table holds.
- The dashboard and the log viewer only check `logged_in`. No other check exists.

## Model

| member | source | states |
|---|---|---|
| Hashing.HashPw | app.py:102 | the digest records its salt and is accepted by `CheckPw` for the hashed secret and for no other secret |
| Hashing.SaltsSeparateDigests | app.py:102 | a property of the idealised hash, true by its construction: two hashes of one secret with different salts are different stored values, and both accept the secret |
| Providers.PlatformFromName | app.py:164-212 | a label reaches a branch exactly when it is the name of one of the four platforms; every other label reaches none |
| Providers.Name | app.py:164 | every platform's label is one of the four radio options |
| Providers.NameRoundTrip | app.py:164-166 | every platform's radio label dispatches back to that platform |
| Providers.CreateVmOpenstack | app.py:45-46 | status "success", id "os123", and the name, flavor and image echoed back; no other fields |
| Providers.ListVmsOpenstack | app.py:49-50 | one resource, id "os123", name "OpenStack_VM", status "active"; no other fields |
| Providers.CreateInstanceAws | app.py:53-54 | status "success", id "aws123", and the name and instance type echoed back; no other fields |
| Providers.ListInstancesAws | app.py:57-58 | one resource, id "aws123", name "AWS_Instance", status "running"; no other fields |
| Providers.CreateInstanceGcp | app.py:61-62 | status "success", id "gcp123", and the name and machine type echoed back; no other fields |
| Providers.ListInstancesGcp | app.py:65-66 | one resource, id "gcp123", name "GCP_Instance", status "running"; no other fields |
| Providers.CreateInstanceAzure | app.py:69-70 | status "success", id "azure123", and the name and size echoed back; no other fields |
| Providers.ListInstancesAzure | app.py:73-74 | one resource, id "azure123", name "Azure_Instance", status "running"; no other fields |
| Providers.CreateLabel | app.py:171-207 | the audit label is "Create VM" exactly for OpenStack and "Create Instance" for AWS, GCP and Azure |
| Providers.TestResourceName | app.py:170-206 | the resource name each create button passes is the platform label followed by "_Test_VM" for OpenStack and "_Test_Instance" otherwise |
| Providers.IdField | app.py:45-74 | the mock records carry their identifier under "vm_id" exactly for OpenStack and under "instance_id" otherwise |
| Providers.CreateOn | app.py:166-206 | each platform's create button succeeds, echoes that platform's test resource name and its fixed size or flavour arguments ("t2.micro"; "m1.small" and "Ubuntu"; "n1-standard-1"; "Standard_DS1_v2"), and reports the identifier its list button shows |
| Providers.ListOn | app.py:174-212 | each platform's list button returns one resource carrying that platform's identifier field |
| Providers.ListShowsCreatedResource | app.py:45-74 | a fact about the mock constants, true by construction: on every platform, the resource the list mock shows has the identifier the create mock returns |
| Tables.InsertUser | app.py:98-108 | the insert fails exactly when the name is already present (the UNIQUE column at line 18); on success it adds that one entry and keeps every other entry |
| Tables.Lookup | app.py:114-115 | a row is found exactly when the name is present, and the row is that name's entry |
| Tables.Validate | app.py:111-121 | false for an unknown name; for a known name, true exactly when the password checks against the stored hash |
| Tables.ValidateAfterInsert | app.py:98-121 | after a successful insert of a name with the hash of a secret, that secret validates and every other secret is rejected |
| Tables.InsertKeepsOtherLogins | app.py:103 | inserting one name changes no other name's login outcome |
| Tables.SecondInsertFails | app.py:98-108 | registering a new name succeeds, and registering it a second time hits the IntegrityError |
| AppSpec.Fresh | app.py:15-32 | a new database has empty tables, and a new session is not logged in |
| AppSpec.SetupDatabase | app.py:35-38 | afterwards `admin` exists; if it already existed, nothing changed; if it was absent, it now logs in with "password"; other users, the logs and the session are untouched |
| AppSpec.SetupIdempotent | app.py:35-38 | running the setup a second time, with any salt, changes nothing |
| AppSpec.LogAction | app.py:86-94 | exactly one record `(user, action, platform)` goes at the end; earlier records, the users and the session are unchanged |
| AppSpec.RegisterUser | app.py:98-108 | a duplicate name reports "taken" and changes nothing; a new name adds exactly that entry, which accepts exactly the given password; logs and session are untouched |
| AppSpec.Login | app.py:150-156 | valid credentials set `logged_in` and bind `username` to the given name; invalid ones change nothing and give one generic error |
| AppSpec.AuthPanel | app.py:132-156 | nothing happens without a button press; registration with an empty field changes nothing; a submitted registration of a new name with both fields filled adds exactly that user, who then logs in with exactly that password, and the users table changes in no other case; every existing user's entry is kept; a submitted valid login binds the session to the name, and the session changes in no other case; the logs never change; the message is "fill in all fields" for an empty registration field, "taken" or "registered" for a filled-in registration according to whether the name exists, and "welcome" or the one generic "invalid credentials" for a login according to whether the credentials validate |
| AppSpec.DashboardPanel | app.py:159-231 | logged out: only the warning, and the state is unchanged; logged in: a create on a known platform appends exactly `(user, label, platform)` and returns that backend's result; a list returns that backend's listing; the log viewer shows the logs after the create; nothing else changes |
| AppSpec.Step | app.py:234-239 | one execution of the script appends one audit record exactly when the session is logged in and create is pressed on a known platform; that record names the session user and the platform; earlier records stay |
| AppSpec.Run | app.py:234-239 | repeated executions of the script: an empty sequence leaves the state as it was, and over any sequence the audit log only grows at its end |
| AppSpec.StepPreservesInv | app.py:150-231 | one execution keeps the invariant: a logged-in session and every audit record name a registered user |
| AppSpec.StepExtends | app.py:234-239 | one execution only appends to the logs and never changes a stored credential |
| AppSpec.RunPreservesInv | app.py:150-231 | every state reached by any sequence of executions keeps the invariant |
| AppSpec.RunExtends | app.py:86-108 | over any sequence of executions the audit log is append-only and no stored credential changes |
| AppSpec.AnonymousRerunWritesNoLog | app.py:159-231 | a logged-out session that does not log in during the execution sees only the warning and writes no log |
| AppSpec.LoginFailuresIndistinguishable | app.py:118-121 | an unknown name and a wrong password give the same state and the same error |
| AppSpec.RegisterThenLogin | app.py:98-156 | after registering a new name, logging in with that password succeeds and binds the session to the name |
| AppSpec.AliceScenario | app.py:132-176 | register alice, log in, create on AWS: the log holds exactly `("alice", "Create Instance", "AWS")`; a following list leaves it unchanged |
| App.Portal.constructor | app.py:15-32 | empty tables and an anonymous session, which satisfy the invariant |
| App.Portal.SetupDatabase | app.py:35-38 | updates the users field in place and leaves exactly the state `AppSpec.SetupDatabase` gives |
| App.Portal.LogAction | app.py:86-94 | the logs field becomes the old logs plus one record; no other field may change |
| App.Portal.RegisterUser | app.py:98-108 | changes only the users field and returns the message `AppSpec.RegisterUser` gives, with its state |
| App.Portal.ValidateUser | app.py:111-121 | reads only; the answer is `Tables.Validate` on the current table, and false for an unknown name |
| App.Portal.AuthPanel | app.py:132-156 | changes only the users and session fields, as `AppSpec.AuthPanel` gives |
| App.Portal.DashboardPanel | app.py:159-231 | changes only the logs field, as `AppSpec.DashboardPanel` gives |
| App.Portal.Rerun | app.py:234-239 | one execution gives exactly `AppSpec.Step`, only appends to the logs, keeps credentials, and keeps the invariant |

## Left out

- The Streamlit rendering (`st.title`, `st.sidebar.*`, `st.success`, `st.write`, `st.metric`) is presentation only. The model keeps only the message and view values that the screen would show.
- `generate_mock_metrics` (app.py:77-82) draws random numbers and only displays them.
- SQLite connection handling (connect, commit, close) is file and database I/O. The tables are fields instead.
- The `os.path.exists("logs.db")` check (app.py:10) is file I/O. The model seeds `admin` whenever the row is absent. No operation deletes a user, so for a database this program created, the two conditions agree.
- No store operation fails in the model. In the program an `sqlite3.OperationalError` from `log_action` (app.py:89-93) is not caught: it would end the execution after the provider call and before the success message. A failure in `register_user` other than the IntegrityError, or in `validate_user`, is likewise not modelled.
- The AUTOINCREMENT `id` columns and the timestamps (`datetime('now')`, `CURRENT_TIMESTAMP`) are left out. Ids are not used, and timestamps are wall-clock values. Log order is kept as insertion order.
- Row order of `SELECT * FROM logs` without `ORDER BY` is not guaranteed by SQLite. The model shows the logs in insertion order.
- bcrypt internals (`hashpw`, `gensalt`, `checkpw`) are a foreign library. `CheckPw` is an idealised exact comparison: it ignores bcrypt's 72-byte password limit and assumes no collisions. The UTF-8 encoding is not modelled, and the salt is a parameter.
- `AppSpec.Step` and `App.Portal.Rerun` model one execution of the script for one browser session. Concurrent sessions sharing `logs.db` are not modelled. Nor are constant-time comparison and provider timeouts, which the program does not implement.
- The `AuthForm.mode` radio and `DashboardForm.platform` radio are free inputs. The platform is a string, so a label outside the four is also covered.
