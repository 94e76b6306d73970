/** The connector's single employee: its checks, its file and the management operations that change it
    (`src/employee.rs`, `src/employee_management.rs`). */
module Employees {
  import opened Json
  import opened Text

  const SCHEMA_VERSION: string := "1.0.0"

  datatype Employee = Employee(
    schemaVersion: string,
    name: string,
    description: string,
    enabled: bool,
    workingDirectory: Option<string>,
    workspaces: set<nat>)

  /** Bytes in UTF-8, which is what `len` counts. */
  function Utf8Length(s: string): nat {
    if s == "" then 0
    else (var c := s[0] as int; if c < 0x80 then 1 else if c < 0x800 then 2 else if c < 0x1_0000 then 3 else 4)
         + Utf8Length(s[1..])
  }

  /** The length of a text is that of its characters together, each one byte to four. */
  lemma {:induction false} Utf8LengthIs(s: string, c: char)
    ensures Utf8Length("") == 0 && Utf8Length(s + [c]) == Utf8Length(s) + Utf8Length([c])
    ensures var n := c as int;
      Utf8Length([c]) == if n <= 127 then 1 else if n <= 2047 then 2 else if n <= 65535 then 3 else 4
  {
    assert [c][1..] == "";
    if s == "" {
      assert s + [c] == [c];
    } else {
      assert (s + [c])[1..] == s[1..] + [c];
      Utf8LengthIs(s[1..], c);
    }
  }

  /** A path on Unix. */
  predicate IsAbsolute(path: string) {
    path != "" && path[0] == '/'
  }

  /** `validate`: the HTTP status of the refusal, if it refuses. */
  function Validate(e: Employee): Option<nat> {
    if e.schemaVersion != SCHEMA_VERSION then Some(500)
    else if Trim(e.name) == "" || Utf8Length(e.name) > 200 || Utf8Length(e.description) > 4000 || 0 in e.workspaces
    then Some(400)
    else if e.workingDirectory.Some? && !IsAbsolute(e.workingDirectory.value) then Some(400)
    else None
  }

  /** A valid employee has the one schema version, a name that is not all white space, texts of at most 200 and 4000
      bytes, no workspace 0, and an absolute directory if any. Of the refusals, only a wrong version is the server's. */
  lemma ValidIs(e: Employee)
    ensures Validate(e).None? <==>
      && e.schemaVersion == "1.0.0" && (exists i :: 0 <= i < |e.name| && !IsWhitespace(e.name[i]))
      && Utf8Length(e.name) <= 200 && Utf8Length(e.description) <= 4000 && 0 !in e.workspaces
      && (e.workingDirectory.Some? ==> e.workingDirectory.value != "" && e.workingDirectory.value[0] == '/')
    ensures Validate(e).Some? ==> Validate(e) == Some(if e.schemaVersion == "1.0.0" then 400 else 500)
  {
    TrimsToNothing(e.name);
  }

  /** `authorize`. */
  function Authorize(e: Employee, workspace: nat): Option<nat> {
    if !e.enabled || workspace !in e.workspaces then Some(403)
    else if e.workingDirectory.None? then Some(409)
    else None
  }

  datatype Identity = Identity(name: string, description: string, enabled: bool)

  /** A management request; a body that does not decode is None. */
  datatype Change =
    | Register(identity: Option<Identity>)
    | Update(identity: Option<Identity>)
    | Configure(directory: Option<string>)
    | Authorization(workspaces: Option<set<nat>>)

  /** How a save ends. The file is in place once it is renamed; the directory is synced only after that, so a save can
      fail with the new file already there. */
  datatype SaveEnd = Written | NotWritten | Unsynced

  /** What the world answers while a change is made: the prepared directory, the workspaces the platform account can
      reach, and how the save ends. */
  datatype World = World(prepared: Result<string, nat>, listing: Result<set<nat>, nat>, saved: SaveEnd)

  function Registered(identity: Identity): Employee {
    Employee(SCHEMA_VERSION, identity.name, identity.description, identity.enabled, None, {})
  }

  function Refused<T>(status: Option<nat>, otherwise: T): Result<T, nat> {
    if status.Some? then Err(status.value) else Ok(otherwise)
  }

  /** The loaded employee with the fields a change assigns. */
  function Assigned(e: Employee, c: Change, w: World): Result<Employee, nat> {
    match c
    case Register(_) => Ok(e)
    case Update(identity) =>
      if identity.None? then Err(400)
      else Ok(e.(name := identity.value.name, description := identity.value.description,
                 enabled := identity.value.enabled))
    case Configure(directory) =>
      if directory.None? then Err(400)
      else if w.prepared.Err? then Err(w.prepared.error)
      else Ok(e.(workingDirectory := Some(w.prepared.value)))
    case Authorization(workspaces) =>
      if workspaces.None? then Err(400)
      else if workspaces.value <= e.workspaces then Ok(e.(workspaces := workspaces.value))
      else if w.listing.Err? then Err(w.listing.error)
      else if !(workspaces.value - e.workspaces <= w.listing.value) then Err(403)
      else Ok(e.(workspaces := workspaces.value))
  }

  /** The employee a change is to be saved as. */
  function Edited(file: Option<Employee>, c: Change, w: World): Result<Employee, nat> {
    if c.Register? then
      if file.Some? then Err(409)
      else if c.identity.None? then Err(400)
      else Refused(Validate(Registered(c.identity.value)), Registered(c.identity.value))
    else if file.None? then Err(403)
    else Assigned(file.value, c, w)
  }

  /** What `change` answers. */
  function Changed(file: Option<Employee>, c: Change, w: World): Result<Employee, nat> {
    var edited := Edited(file, c, w);
    if edited.Err? then edited
    else if Validate(edited.value).Some? || w.saved.Written? then Refused(Validate(edited.value), edited.value)
    else Err(500)
  }

  /** The change reaches the file, whatever it then answers. */
  predicate Rewrites(file: Option<Employee>, c: Change, w: World) {
    var edited := Edited(file, c, w);
    edited.Ok? && Validate(edited.value).None? && !w.saved.NotWritten?
  }

  /** The file a change leaves. */
  function Left(file: Option<Employee>, c: Change, w: World): Option<Employee> {
    if Rewrites(file, c, w) then Some(Edited(file, c, w).value) else file
  }

  /** A change that answers with an employee has put it on file; one that answers with an error has left the file as it
      was, except for exactly one: the valid new employee was renamed into place and the directory sync failed. */
  lemma ErrorsKeepTheFile(file: Option<Employee>, c: Change, w: World)
    ensures var r, left := Changed(file, c, w), Left(file, c, w);
      && (r.Ok? ==> left == Some(r.value))
      && (r.Err? ==> (left == file <==>
            !(w.saved.Unsynced? && Edited(file, c, w).Ok? && Validate(Edited(file, c, w).value).None?
              && file != Some(Edited(file, c, w).value))))
  {
    hide Validate, Edited;
  }

  /** That one is real: disabling the employee answers 500 and has disabled it. */
  lemma AnErrorCanChangeTheFile()
    ensures var before := Employee(SCHEMA_VERSION, "a", "", true, None, {});
      var c, w := Update(Some(Identity("a", "", false))), World(Err(0), Err(0), Unsynced);
      Changed(Some(before), c, w) == Err(500) && Left(Some(before), c, w) == Some(before.(enabled := false))
  {
    assert Trim("a") == "a" && Utf8Length("a") == 1;
  }

  /** The file as the write lock protects it; `load` refuses a file that does not validate. */
  class EmployeeFile {
    var file: Option<Employee>

    ghost predicate Valid()
      reads this
    {
      file.Some? ==> Validate(file.value).None?
    }

    constructor ()
      ensures Valid() && file == None
    {
      file := None;
    }

    method Save(e: Employee, saved: SaveEnd) returns (refusal: Option<nat>)
      modifies this
      ensures refusal == (if Validate(e).Some? then Validate(e) else if saved.Written? then None else Some(500))
      ensures file == if Validate(e).None? && !saved.NotWritten? then Some(e) else old(file)
    {
      refusal := Validate(e);
      if refusal.Some? {
        return;
      }
      if saved.NotWritten? {
        return Some(500);
      }
      file := Some(e);
      if saved.Unsynced? {
        refusal := Some(500);
      }
    }

    /** `change`: what it answers, and the file it leaves. */
    method Change(c: Change, w: World) returns (r: Result<Employee, nat>)
      requires Valid()
      modifies this
      ensures Valid()
      ensures r == Changed(old(file), c, w)
      ensures file == Left(old(file), c, w)
    {
      var employee: Employee;
      if c.Register? {
        if file.Some? {
          return Err(409);
        }
        if c.identity.None? {
          return Err(400);
        }
        employee := Registered(c.identity.value);
        var invalid := Validate(employee);
        if invalid.Some? {
          return Err(invalid.value);
        }
      } else {
        if file.None? {
          return Err(403);
        }
        employee := file.value;
      }
      var refusal;
      employee, refusal := Assign(employee, c, w);
      if refusal.Some? {
        return Err(refusal.value);
      }
      hide Validate;
      refusal := Save(employee, w.saved);
      if refusal.Some? {
        return Err(refusal.value);
      }
      r := Ok(employee);
    }

    /** The assignments under the write lock, field by field. */
    static method Assign(loaded: Employee, c: Change, w: World) returns (employee: Employee, refusal: Option<nat>)
      ensures Assigned(loaded, c, w) == Refused(refusal, employee)
    {
      employee, refusal := loaded, None;
      match c
      case Register(_) =>
      case Update(identity) =>
        if identity.None? {
          return employee, Some(400);
        }
        employee := employee.(name := identity.value.name);
        employee := employee.(description := identity.value.description);
        employee := employee.(enabled := identity.value.enabled);
      case Configure(directory) =>
        if directory.None? {
          return employee, Some(400);
        }
        if w.prepared.Err? {
          return employee, Some(w.prepared.error);
        }
        employee := employee.(workingDirectory := Some(w.prepared.value));
      case Authorization(workspaces) =>
        if workspaces.None? {
          return employee, Some(400);
        }
        var added := workspaces.value - employee.workspaces;
        assert forall id | id in workspaces.value && id !in employee.workspaces :: id in added;
        if added != {} {
          if w.listing.Err? {
            return employee, Some(w.listing.error);
          }
          if exists id | id in added :: id !in w.listing.value {
            return employee, Some(403);
          }
          assert added <= w.listing.value;
        }
        employee := employee.(workspaces := workspaces.value);
    }
  }

  /** What each change that reaches the file puts there: a registration a new employee without directory or grants, an
      update the identity it gives, a configuration the prepared directory, an authorization exactly the workspaces it
      names, so that one it leaves out is gone; and nothing else is changed. */
  lemma ChangeDoes(file: Option<Employee>, c: Change, w: World)
    requires Rewrites(file, c, w)
    ensures var e := Edited(file, c, w).value;
      && Left(file, c, w) == Some(e)
      && match c
         case Register(identity) =>
           file.None? && identity.Some?
           && e == Employee("1.0.0", identity.value.name, identity.value.description, identity.value.enabled, None, {})
         case Update(identity) =>
           file.Some? && identity.Some?
           && e == file.value.(name := identity.value.name, description := identity.value.description,
                               enabled := identity.value.enabled)
         case Configure(directory) =>
           file.Some? && directory.Some? && w.prepared.Ok?
           && e == file.value.(workingDirectory := Some(w.prepared.value))
         case Authorization(workspaces) =>
           file.Some? && workspaces.Some? && e == file.value.(workspaces := workspaces.value)
  {
    hide Validate;
  }

  /** What a change that does not reach the file for a reason of its own is refused with. */
  lemma RefusedWith(file: Option<Employee>, c: Change, w: World, status: nat)
    ensures Edited(file, c, w) == Err(status) <==>
      match c
      case Register(identity) =>
        if file.Some? then status == 409
        else if identity.None? then status == 400
        else Validate(Employee("1.0.0", identity.value.name, identity.value.description, identity.value.enabled,
                               None, {})) == Some(status)
      case Update(identity) => (file.None? && status == 403) || (file.Some? && identity.None? && status == 400)
      case Configure(directory) =>
        if file.None? then status == 403
        else if directory.None? then status == 400 else w.prepared == Err(status)
      case Authorization(workspaces) =>
        if file.None? then status == 403
        else if workspaces.None? then status == 400
        else if forall id | id in workspaces.value :: id in file.value.workspaces then false
        else if w.listing.Err? then w.listing == Err(status)
        else status == 403
             && exists id :: id in workspaces.value && id !in file.value.workspaces && id !in w.listing.value
  {
    hide Validate;
    if c.Authorization? && file.Some? && c.workspaces.Some? {
      var asked, had := c.workspaces.value, file.value.workspaces;
      assert asked <= had <==> forall id | id in asked :: id in had;
      if w.listing.Ok? {
        assert asked - had <= w.listing.value <==>
          !exists id :: id in asked && id !in had && id !in w.listing.value;
      }
    }
  }

  /** An identity change keeps directory and grants, a configuration keeps identity and grants, an authorization keeps
      identity and directory; only an authorization ever adds a workspace, and only listed ones. */
  lemma ChangeIsConfined(file: Option<Employee>, c: Change, w: World)
    requires Rewrites(file, c, w)
    ensures var e := Edited(file, c, w).value;
      && Validate(e).None?
      && (c.Register? <==> file.None?)
      && (file.None? ==> e.workspaces == {} && e.workingDirectory.None?)
      && (file.Some? ==>
            && (!c.Update? ==>
                  && e.name == file.value.name && e.description == file.value.description
                  && e.enabled == file.value.enabled)
            && (!c.Configure? ==> e.workingDirectory == file.value.workingDirectory)
            && (!c.Authorization? ==> e.workspaces == file.value.workspaces)
            && (e.workspaces <= file.value.workspaces
                || (w.listing.Ok? && e.workspaces - file.value.workspaces <= w.listing.value)))
  {
    hide Validate;
  }
}
