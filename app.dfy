/**
 The portal as the program runs it: the tables of `logs.db` and `st.session_state` are fields of
 one object, updated in place by the script's functions. Each method is specified by the
 corresponding function of `AppSpec` applied to the state before the call.
 */
module App {
  import opened Wrappers
  import opened Hashing
  import opened Providers
  import opened Tables
  import AppSpec

  class Portal {
    /** The `users` table: UNIQUE user name to bcrypt hash. */
    var users: Users
    /** The `logs` table, in insertion order. */
    var logs: seq<LogRecord>
    /** `st.session_state["logged_in"]`; a missing key reads as false. */
    var loggedIn: bool
    /** `st.session_state["username"]`. */
    var username: string

    /** The state this object stands for. */
    function Snapshot(): (r: AppSpec.State)
      reads this
    {
      AppSpec.State(users, logs, AppSpec.Session(loggedIn, username))
    }

    ghost predicate Valid()
      reads this
    {
      AppSpec.Inv(Snapshot())
    }

    /** An empty database and a new, anonymous browser session. */
    constructor ()
      ensures Snapshot() == AppSpec.Fresh()
      ensures Valid()
    {
      users := map[];
      logs := [];
      loggedIn := false;
      username := "";
    }

    /** `setup_database`: insert `admin` with the default password unless the row exists. */
    method SetupDatabase(salt: Salt)
      modifies this`users
      ensures Snapshot() == AppSpec.SetupDatabase(old(Snapshot()), salt)
    {
      var row := Lookup(users, AppSpec.AdminName);
      if row.None? {
        var adminPassword := HashPw(AppSpec.AdminPassword, salt);
        users := users[AppSpec.AdminName := adminPassword];
      }
    }

    /** `log_action`: append exactly one record; nothing else changes. */
    method LogAction(user: string, action: string, platform: string)
      modifies this`logs
      ensures logs == old(logs) + [LogRecord(user, action, platform)]
      ensures Snapshot() == AppSpec.LogAction(old(Snapshot()), user, action, platform)
    {
      logs := logs + [LogRecord(user, action, platform)];
    }

    /** `register_user`: the insert either succeeds or hits the IntegrityError path and changes nothing. */
    method RegisterUser(name: string, password: string, salt: Salt) returns (msg: AppSpec.AuthMessage)
      modifies this`users
      ensures (Snapshot(), msg) == AppSpec.RegisterUser(old(Snapshot()), name, password, salt)
    {
      var hashed := HashPw(password, salt);
      var inserted := InsertUser(users, name, hashed);
      match inserted
      case Ok(updated) =>
        users := updated;
        msg := AppSpec.Registered;
      case Err(_) =>
        msg := AppSpec.UsernameTaken;
    }

    /** `validate_user`: reads the table and changes nothing. */
    method ValidateUser(name: string, password: string) returns (ok: bool)
      ensures ok == Validate(users, name, password)
      ensures name !in users ==> !ok
    {
      var row := Lookup(users, name);
      if row.Some? {
        ok := CheckPw(password, row.value);
      } else {
        ok := false;
      }
    }

    /** The sidebar authentication form of `main`. */
    method AuthPanel(form: AppSpec.AuthForm) returns (msg: AppSpec.AuthMessage)
      modifies this`users, this`loggedIn, this`username
      ensures (Snapshot(), msg) == AppSpec.AuthPanel(old(Snapshot()), form)
    {
      if !form.submitted {
        msg := AppSpec.Silent;
      } else if form.mode == AppSpec.RegisterMode {
        if form.name != "" && form.password != "" {
          msg := RegisterUser(form.name, form.password, form.salt);
        } else {
          msg := AppSpec.FillAllFields;
        }
      } else {
        var ok := ValidateUser(form.name, form.password);
        if ok {
          loggedIn := true;
          username := form.name;
          msg := AppSpec.Welcome(form.name);
        } else {
          msg := AppSpec.InvalidCredentials;
        }
      }
    }

    /** The dashboard of `main`: only a logged-in session reaches the providers or the logs. */
    method DashboardPanel(form: AppSpec.DashboardForm) returns (view: AppSpec.View)
      modifies this`logs
      ensures (Snapshot(), view) == AppSpec.DashboardPanel(old(Snapshot()), form)
    {
      if !loggedIn {
        view := AppSpec.LoginRequired;
        return;
      }
      var user := username;
      var created: Option<Record> := None;
      var listed: Option<seq<Record>> := None;
      var platform := PlatformFromName(form.platform);
      if platform.Some? {
        var p := platform.value;
        if form.create {
          var result := CreateOn(p);
          LogAction(user, CreateLabel(p), Name(p));
          created := Some(result);
        }
        if form.list {
          listed := Some(ListOn(p));
        }
      }
      var shown: Option<seq<LogRecord>> := None;
      if form.viewLogs {
        shown := Some(logs);
      }
      view := AppSpec.Dashboard(created, listed, shown);
    }

    /** One execution of the script: `setup_database()` and then `main()`. */
    method Rerun(e: AppSpec.Rerun) returns (msg: AppSpec.AuthMessage, view: AppSpec.View)
      modifies this
      ensures (Snapshot(), msg, view) == AppSpec.Step(old(Snapshot()), e)
      ensures AppSpec.Extends(old(Snapshot()), Snapshot())
      ensures old(Valid()) ==> Valid()
    {
      ghost var before := Snapshot();
      SetupDatabase(e.setupSalt);
      msg := AuthPanel(e.auth);
      view := DashboardPanel(e.dashboard);
      AppSpec.StepExtends(before, e);
      if AppSpec.Inv(before) {
        AppSpec.StepPreservesInv(before, e);
      }
    }
  }
}
