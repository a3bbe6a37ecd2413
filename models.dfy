/**
 * The task application's models: the table-name registry the admin panel
 * resolves names with, and the task record's population from a submitted form.
 */
module Models {
  import opened Common

  // ---------------------------------------------------------------------
  // The registry

  /** The two mapped model classes. */
  datatype ModelClass = UserModel | TaskModel

  /** Each model's `__tablename__`. */
  function TableName(m: ModelClass): (name: string)
    ensures name == "users" <==> m == UserModel
    ensures name == "tasks" <==> m == TaskModel
  {
    match m
    case UserModel => "users"
    case TaskModel => "tasks"
  }

  /** Looking up a name that is not a key of the registry raises `KeyError`. */
  datatype LookupError = KeyError(key: string)

  /** `getModel`: the model class registered under a table name. */
  function GetModel(tablename: string): (r: Result<ModelClass, LookupError>)
    ensures tablename == "users" ==> r == Success(UserModel)
    ensures tablename == "tasks" ==> r == Success(TaskModel)
    ensures tablename != "users" && tablename != "tasks" ==> r == Failure(KeyError(tablename))
  {
    var tables := map[TableName(UserModel) := UserModel, TableName(TaskModel) := TaskModel];
    if tablename in tables then Success(tables[tablename]) else Failure(KeyError(tablename))
  }

  /** The registry resolves every model's own table name to that model, and nothing else to it. */
  lemma GetModelInverse(m: ModelClass, tablename: string)
    ensures GetModel(TableName(m)) == Success(m)
    ensures GetModel(tablename) == Success(m) <==> tablename == TableName(m)
  {
  }

  // ---------------------------------------------------------------------
  // Task.set_values

  /**
   * Submitted form data. Reading a key that is not there raises `KeyError`;
   * a key that is there may still hold `None`.
   */
  type Form = map<string, Option<string>>

  /** A task date: the clock reading taken at population time, or the text the form gave. */
  datatype DateValue = Now(at: Instant) | Given(text: string)

  /** The form keys `set_values` reads, in the order it reads them. */
  const FormKeys: seq<string> := ["name", "desc", "created_at", "end_date", "id_user"]

  /** A date field: the clock when the form value is `None` or empty, else the value as given. */
  function DateOrNow(v: Option<string>, now: Instant): (d: DateValue)
    ensures d == Now(now) <==> v == None || v == Some("")
    ensures v != None && v != Some("") ==> d == Given(v.value)
  {
    if v == None || v == Some("") then Now(now) else Given(v.value)
  }

  /** The fields of a task that `set_values` writes; `None` before anything is assigned. */
  datatype TaskFields = TaskFields(
    name: Option<string>,
    desc: Option<string>,
    createdAt: Option<DateValue>,
    endDate: Option<DateValue>,
    idUser: Option<string>)

  /** The fields after `set_values`, and the key whose absence stopped it, if any. */
  datatype Populated = Populated(fields: TaskFields, missing: Option<string>)

  /**
   * The effect of `set_values` on a task's fields. The fields are assigned
   * one after another, so when a key is missing the fields before it are
   * already written and the rest keep their values.
   */
  function Populate(before: TaskFields, form: Form, createdNow: Instant, endNow: Instant): (r: Populated)
    ensures r.missing == None <==>
      "name" in form && "desc" in form && "created_at" in form && "end_date" in form && "id_user" in form
    ensures r.missing.Some? ==>
      exists i :: (0 <= i < |FormKeys| && FormKeys[i] == r.missing.value && FormKeys[i] !in form &&
                   forall j :: 0 <= j < i ==> FormKeys[j] in form)
    ensures r.missing == None ==>
      && r.fields.name == form["name"]
      && r.fields.desc == form["desc"]
      && r.fields.idUser == form["id_user"]
      && r.fields.createdAt == Some(DateOrNow(form["created_at"], createdNow))
      && r.fields.endDate == Some(DateOrNow(form["end_date"], endNow))
    ensures r.missing == Some("name") ==> r.fields == before
    ensures r.missing == Some("desc") ==>
      "name" in form && r.fields == before.(name := form["name"])
    ensures r.missing == Some("created_at") ==>
      "name" in form && "desc" in form &&
      r.fields == before.(name := form["name"], desc := form["desc"])
    ensures r.missing == Some("end_date") ==>
      "name" in form && "desc" in form && "created_at" in form &&
      r.fields == before.(name := form["name"], desc := form["desc"],
                          createdAt := Some(DateOrNow(form["created_at"], createdNow)))
    ensures r.missing == Some("id_user") ==>
      "name" in form && "desc" in form && "created_at" in form && "end_date" in form &&
      r.fields == before.(name := form["name"], desc := form["desc"],
                          createdAt := Some(DateOrNow(form["created_at"], createdNow)),
                          endDate := Some(DateOrNow(form["end_date"], endNow)))
    ensures r.missing.Some? ==> r.fields.idUser == before.idUser
  {
    if "name" !in form then
      assert FormKeys[0] == "name";
      Populated(before, Some("name"))
    else
      var t1 := before.(name := form["name"]);
      if "desc" !in form then
        assert FormKeys[1] == "desc" && FormKeys[0] in form;
        Populated(t1, Some("desc"))
      else
        var t2 := t1.(desc := form["desc"]);
        if "created_at" !in form then
          assert FormKeys[2] == "created_at" && FormKeys[..2] == ["name", "desc"];
          Populated(t2, Some("created_at"))
        else
          var t3 := t2.(createdAt := Some(DateOrNow(form["created_at"], createdNow)));
          if "end_date" !in form then
            assert FormKeys[3] == "end_date" && FormKeys[..3] == ["name", "desc", "created_at"];
            Populated(t3, Some("end_date"))
          else
            var t4 := t3.(endDate := Some(DateOrNow(form["end_date"], endNow)));
            if "id_user" !in form then
              assert FormKeys[4] == "id_user" && FormKeys[..4] == ["name", "desc", "created_at", "end_date"];
              Populated(t4, Some("id_user"))
            else
              Populated(t4.(idUser := form["id_user"]), None)
  }

  /** The creation date does not depend on the end date's field, present or not. */
  lemma CreatedAtIgnoresEndDate(before: TaskFields, form: Form, v: Option<string>, createdNow: Instant, endNow: Instant)
    ensures Populate(before, form["end_date" := v], createdNow, endNow).fields.createdAt ==
            Populate(before, form, createdNow, endNow).fields.createdAt
    ensures Populate(before, form - {"end_date"}, createdNow, endNow).fields.createdAt ==
            Populate(before, form, createdNow, endNow).fields.createdAt
  {
  }

  /** The end date depends on the creation date's field only through its presence. */
  lemma EndDateIgnoresCreatedAt(before: TaskFields, form: Form, v: Option<string>, createdNow: Instant, endNow: Instant)
    requires "created_at" in form
    ensures Populate(before, form["created_at" := v], createdNow, endNow).fields.endDate ==
            Populate(before, form, createdNow, endNow).fields.endDate
  {
  }

  /** A task record of the task application. */
  class Task {
    var name: Option<string>
    var desc: Option<string>
    var createdAt: Option<DateValue>
    var endDate: Option<DateValue>
    var idUser: Option<string>

    function Fields(): TaskFields
      reads this
    {
      TaskFields(name, desc, createdAt, endDate, idUser)
    }

    /** `Task()`, the blank record the admin panel builds before `set_values`: nothing assigned yet. */
    constructor ()
      ensures Fields() == TaskFields(None, None, None, None, None)
    {
      name, desc, createdAt, endDate, idUser := None, None, None, None, None;
    }

    /**
     * `set_values(form_data)`; `missing` is the key of the `KeyError` it raised,
     * if it raised. The clock is read once per date field, so the two readings
     * are separate parameters.
     */
    method SetValues(form: Form, createdNow: Instant, endNow: Instant) returns (missing: Option<string>)
      modifies this
      ensures Populated(Fields(), missing) == Populate(old(Fields()), form, createdNow, endNow)
    {
      if "name" !in form {
        return Some("name");
      }
      name := form["name"];
      if "desc" !in form {
        return Some("desc");
      }
      desc := form["desc"];
      if "created_at" !in form {
        return Some("created_at");
      }
      var created := form["created_at"];
      if created == None || created == Some("") {
        createdAt := Some(Now(createdNow));
      } else {
        createdAt := Some(Given(created.value));
      }
      if "end_date" !in form {
        return Some("end_date");
      }
      var ending := form["end_date"];
      if ending == None || ending == Some("") {
        endDate := Some(Now(endNow));
      } else {
        endDate := Some(Given(ending.value));
      }
      if "id_user" !in form {
        return Some("id_user");
      }
      idUser := form["id_user"];
      missing := None;
    }
  }
}
