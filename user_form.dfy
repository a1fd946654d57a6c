/** The admin's user form: a name and a role, sent to the user being edited. */
module UserForm {
  import opened Wrappers
  import opened Types
  import opened Http

  datatype Values = Values(name: string, role: string)

  datatype Field = NameField | RoleField

  predicate Fails(v: Values, f: Field) {
    match f
    case NameField => |v.name| < 2
    case RoleField => ParseRole(v.role).None?
  }

  function Errors(v: Values): (e: set<Field>)
    ensures forall f :: f in e <==> Fails(v, f)
  {
    set f | f in {NameField, RoleField} && Fails(v, f)
  }

  /** The schema passes exactly for a name of two or more characters and one of the four role values. */
  lemma ErrorsEmptyIff(v: Values)
    ensures Errors(v) == {} <==> |v.name| >= 2 && v.role in {"user", "designer", "worker", "admin"}
  {
    var e := Errors(v);
    if e == {} {
      assert !Fails(v, NameField) && !Fails(v, RoleField);
    } else {
      var f :| f in e;
      assert Fails(v, f);
    }
  }

  /** The user being edited. */
  datatype EditedUser = EditedUser(id: string, name: string, email: string, role: string)

  /**
   * `onSubmit`: nothing without a selected user; otherwise one PUT to that
   * user carrying exactly the name and role.
   */
  function SubmitRequest(user: Option<EditedUser>, v: Values): (r: Option<Request<Values>>)
    ensures r.None? <==> user.None?
    ensures r.Some? ==> r.value == Request(Put, "/api/users/" + user.value.id, v)
  {
    if user.None? then None else Some(Request(Put, "/api/users/" + user.value.id, v))
  }

  /** A valid submission names a role the server knows and a name of two or more characters. */
  lemma SubmittedRoleIsKnown(user: EditedUser, v: Values)
    requires Errors(v) == {}
    ensures var r := SubmitRequest(Some(user), v).value;
      ParseRole(r.body.role).Some? && RoleName(ParseRole(r.body.role).value) == r.body.role && |r.body.name| >= 2
  {
    assert RoleField !in Errors(v) && NameField !in Errors(v);
  }

  /** The form's state: empty until a user is selected. */
  class FormState {
    var values: Option<Values>

    constructor()
      ensures values.None?
    {
      values := None;
    }

    /** The reset run when the selected user changes; with no user the fields stay as they are. */
    method Reset(user: Option<EditedUser>)
      modifies this
      ensures user.Some? ==> values == Some(Values(user.value.name, user.value.role))
      ensures user.None? ==> values == old(values)
    {
      if user.Some? {
        values := Some(Values(user.value.name, user.value.role));
      }
    }
  }
}
