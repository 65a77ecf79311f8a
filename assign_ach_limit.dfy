/** The eight-step ACH limit walkthrough (src/components/settings/AssignAchLimit.tsx): seven
    instruction steps offering only Next, and a last step holding three limit fields with Back
    and Save. */
module AssignAchLimit {

  const LastStep: int := 8

  datatype LimitField = ApprovalsPerDay | PaymentLimit | DailyCumulation

  datatype AchLimitForm = AchLimitForm(approvalsPerDay: string, paymentLimit: string, dailyCumulation: string)

  function EmptyForm(): AchLimitForm
  {
    AchLimitForm("", "", "")
  }

  function Get(d: AchLimitForm, f: LimitField): string
  {
    match f
    case ApprovalsPerDay => d.approvalsPerDay
    case PaymentLimit => d.paymentLimit
    case DailyCumulation => d.dailyCumulation
  }

  /** `{ ...prev, [name]: value }`. */
  function WithField(d: AchLimitForm, f: LimitField, v: string): (r: AchLimitForm)
    ensures Get(r, f) == v
    ensures forall g :: g != f ==> Get(r, g) == Get(d, g)
  {
    match f
    case ApprovalsPerDay => d.(approvalsPerDay := v)
    case PaymentLimit => d.(paymentLimit := v)
    case DailyCumulation => d.(dailyCumulation := v)
  }

  /** Every field of the empty form is empty. */
  lemma EmptyFormIsEmpty(f: LimitField)
    ensures Get(EmptyForm(), f) == ""
  {
  }

  /** `handleNext`: one step on below step 8, nothing on step 8. */
  function NextStep(step: int): (s: int)
    ensures step < LastStep ==> s == step + 1
    ensures step >= LastStep ==> s == step
  {
    if step < LastStep then step + 1 else step
  }

  /** The step after `k` clicks on Next. */
  function AfterNexts(step: int, k: nat): int
  {
    if k == 0 then step else NextStep(AfterNexts(step, k - 1))
  }

  /** From step 1, `k` clicks on Next reach step `min(1 + k, 8)`: the counter saturates at 8
      and never leaves 1..8. */
  lemma {:induction false} NextsSaturate(k: nat)
    ensures AfterNexts(1, k) == if 1 + k < LastStep then 1 + k else LastStep
    ensures 1 <= AfterNexts(1, k) <= LastStep
  {
    if k > 0 {
      NextsSaturate(k - 1);
    }
  }

  /** `{step === 8 ? ... }`: the limit fields and the Back and Save buttons are drawn only on
      the last step. */
  predicate ShowsLimitFields(step: int)
  {
    step == LastStep
  }

  /** Seven clicks on Next are exactly enough to bring up the limit fields. */
  lemma SevenNextsReachLimits()
    ensures ShowsLimitFields(AfterNexts(1, 7))
    ensures forall k: nat :: k < 7 ==> !ShowsLimitFields(AfterNexts(1, k))
  {
    NextsSaturate(7);
    forall k: nat | k < 7 ensures !ShowsLimitFields(AfterNexts(1, k)) {
      NextsSaturate(k);
    }
  }

  class AchLimitWizard {
    var step: int
    var formData: AchLimitForm

    ghost predicate Valid()
      reads this
    {
      1 <= step <= LastStep
    }

    constructor ()
      ensures step == 1 && formData == EmptyForm()
      ensures Valid()
    {
      step := 1;
      formData := EmptyForm();
    }

    method Next()
      requires Valid()
      modifies this
      ensures step == NextStep(old(step))
      ensures old(ShowsLimitFields(step)) ==> step == old(step)
      ensures !old(ShowsLimitFields(step)) ==> step == old(step) + 1
      ensures formData == old(formData)
      ensures Valid()
    {
      if step < LastStep {
        step := step + 1;
      }
    }

    /** Back, drawn with the limit fields: step 7. */
    method Back()
      requires Valid() && ShowsLimitFields(step)
      modifies this
      ensures step == LastStep - 1
      ensures formData == old(formData)
      ensures Valid()
    {
      step := step - 1;
    }

    /** An input among the limit fields. */
    method InputChange(f: LimitField, value: string)
      requires ShowsLimitFields(step)
      modifies this
      ensures formData == WithField(old(formData), f, value)
      ensures step == old(step)
    {
      formData := WithField(formData, f, value);
    }

    /** `handleSave`: back to step 1 with every field empty. */
    method Save()
      requires ShowsLimitFields(step)
      modifies this
      ensures step == 1 && formData == EmptyForm()
      ensures Valid()
    {
      step := 1;
      formData := EmptyForm();
    }
  }
}
