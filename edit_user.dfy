/** The three-step user editor (src/components/settings/EditUser.tsx): a step counter, a form
    of thirteen string fields, the effect that copies a loaded user into the form, and Next,
    which on the last step saves. */
module EditUser {
  import opened Wrappers

  datatype Entitlement = Full | NoEntitlement | Custom

  datatype UserStatus = Active | Pending | Incomplete | Error | Approved | Rejected | Draft | Complete

  function UserStatusName(s: UserStatus): string
  {
    match s
    case Active => "active"
    case Pending => "pending"
    case Incomplete => "incomplete"
    case Error => "error"
    case Approved => "approved"
    case Rejected => "rejected"
    case Draft => "draft"
    case Complete => "complete"
  }

  datatype User = User(
    lastName: string,
    firstName: string,
    userId: string,
    entitlement: Entitlement,
    isApprover: bool,
    isAdmin: bool,
    status: UserStatus)

  /** The form's keys. */
  datatype FormField =
    | Status | FirstName | LastName | Email | Phone | Mobile | UserId | Language | SecurityLevel
    | Approvals | PaymentLimits | AccessSchedule | UserEntitlements

  datatype UserForm = UserForm(
    status: string,
    firstName: string,
    lastName: string,
    email: string,
    phone: string,
    mobile: string,
    userId: string,
    language: string,
    securityLevel: string,
    approvals: string,
    paymentLimits: string,
    accessSchedule: string,
    userEntitlements: string)

  function DefaultForm(): UserForm
  {
    UserForm("active", "", "", "", "", "", "", "English (United States)", "system-admin", "none",
             "unlimited", "unlimited", "full")
  }

  function Get(d: UserForm, f: FormField): string
  {
    match f
    case Status => d.status
    case FirstName => d.firstName
    case LastName => d.lastName
    case Email => d.email
    case Phone => d.phone
    case Mobile => d.mobile
    case UserId => d.userId
    case Language => d.language
    case SecurityLevel => d.securityLevel
    case Approvals => d.approvals
    case PaymentLimits => d.paymentLimits
    case AccessSchedule => d.accessSchedule
    case UserEntitlements => d.userEntitlements
  }

  /** `{ ...prev, [field]: value }`: that field takes the value, every other keeps its own. */
  function WithField(d: UserForm, f: FormField, v: string): (r: UserForm)
    ensures Get(r, f) == v
    ensures forall g :: g != f ==> Get(r, g) == Get(d, g)
  {
    match f
    case Status => d.(status := v)
    case FirstName => d.(firstName := v)
    case LastName => d.(lastName := v)
    case Email => d.(email := v)
    case Phone => d.(phone := v)
    case Mobile => d.(mobile := v)
    case UserId => d.(userId := v)
    case Language => d.(language := v)
    case SecurityLevel => d.(securityLevel := v)
    case Approvals => d.(approvals := v)
    case PaymentLimits => d.(paymentLimits := v)
    case AccessSchedule => d.(accessSchedule := v)
    case UserEntitlements => d.(userEntitlements := v)
  }

  /** Two forms agreeing on every field are the same form. */
  lemma FormExt(a: UserForm, b: UserForm)
    requires forall f :: Get(a, f) == Get(b, f)
    ensures a == b
  {
    assert Get(a, Status) == Get(b, Status) && Get(a, FirstName) == Get(b, FirstName);
    assert Get(a, LastName) == Get(b, LastName) && Get(a, Email) == Get(b, Email);
    assert Get(a, Phone) == Get(b, Phone) && Get(a, Mobile) == Get(b, Mobile);
    assert Get(a, UserId) == Get(b, UserId) && Get(a, Language) == Get(b, Language);
    assert Get(a, SecurityLevel) == Get(b, SecurityLevel) && Get(a, Approvals) == Get(b, Approvals);
    assert Get(a, PaymentLimits) == Get(b, PaymentLimits);
    assert Get(a, AccessSchedule) == Get(b, AccessSchedule);
    assert Get(a, UserEntitlements) == Get(b, UserEntitlements);
  }

  /** Writing one field twice keeps the second value; writing a field's own value changes
      nothing. */
  lemma WithFieldOverwrites(d: UserForm, f: FormField, v1: string, v2: string)
    ensures WithField(WithField(d, f, v1), f, v2) == WithField(d, f, v2)
    ensures WithField(d, f, Get(d, f)) == d
  {
    FormExt(WithField(WithField(d, f, v1), f, v2), WithField(d, f, v2));
    FormExt(WithField(d, f, Get(d, f)), d);
  }

  /** The fields the load effect copies from a user. */
  predicate Loaded(f: FormField)
  {
    f == FirstName || f == LastName || f == UserId || f == Status
  }

  /** The `useEffect` on `user`: a user's names, id and status overwrite the form's; no user
      leaves the form alone. */
  function LoadUser(d: UserForm, user: Option<User>): (r: UserForm)
    ensures user.None? ==> r == d
    ensures user.Some? ==>
      Get(r, FirstName) == user.value.firstName && Get(r, LastName) == user.value.lastName &&
      Get(r, UserId) == user.value.userId && Get(r, Status) == UserStatusName(user.value.status)
    ensures forall f :: !Loaded(f) ==> Get(r, f) == Get(d, f)
  {
    if user.None? then d
    else d.(firstName := user.value.firstName, lastName := user.value.lastName,
            userId := user.value.userId, status := UserStatusName(user.value.status))
  }

  /** Loading the same user again changes nothing more. */
  lemma LoadUserIdempotent(d: UserForm, user: Option<User>)
    ensures LoadUser(LoadUser(d, user), user) == LoadUser(d, user)
  {
  }

  /** Loading a user wipes out an earlier edit of a field the load copies. */
  lemma LoadUserForgetsLoadedFields(d: UserForm, user: User, f: FormField, v: string)
    requires Loaded(f)
    ensures LoadUser(WithField(d, f, v), Some(user)) == LoadUser(d, Some(user))
  {
    FormExt(LoadUser(WithField(d, f, v), Some(user)), LoadUser(d, Some(user)));
  }

  /** The primary button's label: "Save" on the last step, "Next" before it. */
  function PrimaryLabel(step: int): (caption: string)
    ensures caption == "Save" <==> step == 3
    ensures caption == "Save" || caption == "Next"
  {
    if step == 3 then "Save" else "Next"
  }

  class EditUserDialog {
    var step: int
    var formData: UserForm
    /** The `open` prop, which the parent clears in `onClose`. */
    var open: bool

    /** Save resets the step to 1 and Back is offered only above 1. */
    ghost predicate Valid()
      reads this
    {
      1 <= step <= 3
    }

    constructor (isOpen: bool, user: Option<User>)
      ensures step == 1 && formData == LoadUser(DefaultForm(), user) && open == isOpen
      ensures Valid()
    {
      step := 1;
      formData := LoadUser(DefaultForm(), user);
      open := isOpen;
    }

    /** A new `user` prop. */
    method UserChanged(user: Option<User>)
      modifies this
      ensures formData == LoadUser(old(formData), user)
      ensures step == old(step) && open == old(open)
    {
      formData := LoadUser(formData, user);
    }

    method InputChange(f: FormField, value: string)
      modifies this
      ensures formData == WithField(old(formData), f, value)
      ensures step == old(step) && open == old(open)
    {
      formData := WithField(formData, f, value);
    }

    /** `handleNext`, on the button labelled by `PrimaryLabel`: a button reading "Next" goes
        one step on; one reading "Save" runs `handleSave`, which closes the dialog and goes
        back to step 1 but keeps the form. */
    method Next()
      requires Valid()
      modifies this
      ensures old(PrimaryLabel(step)) == "Next" ==> step == old(step) + 1 && open == old(open)
      ensures old(PrimaryLabel(step)) == "Save" ==> step == 1 && !open
      ensures formData == old(formData)
      ensures Valid()
    {
      if step < 3 {
        step := step + 1;
      } else {
        open := false;
        step := 1;
      }
    }

    method Back()
      requires Valid() && step > 1
      modifies this
      ensures step == old(step) - 1
      ensures formData == old(formData) && open == old(open)
      ensures Valid()
    {
      step := step - 1;
    }

    /** Cancel, and closing the dialog: only `onClose`; step and form stay. */
    method Cancel()
      modifies this
      ensures !open
      ensures step == old(step) && formData == old(formData)
    {
      open := false;
    }
  }
}
