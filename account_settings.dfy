/**
  * The account settings page: a form over the stored user record, a
  * profile save that merges the form into the record, a password change
  * that only checks that the two new passwords agree, and the plan lookup
  * and display rules of the subscription tab.
  */
module AccountSettings {
  import opened Wrappers
  import opened Strings
  import opened Session

  datatype FormData = FormData(
    name: string,
    email: string,
    currentPassword: string,
    newPassword: string,
    confirmPassword: string)

  const EmptyForm: FormData := FormData("", "", "", "", "")

  /** The `name` attribute of each input of the two forms. */
  datatype Field = Name | Email | CurrentPassword | NewPassword | ConfirmPassword

  function FieldValue(form: FormData, field: Field): string {
    match field
    case Name => form.name
    case Email => form.email
    case CurrentPassword => form.currentPassword
    case NewPassword => form.newPassword
    case ConfirmPassword => form.confirmPassword
  }

  /** `{...prev, [name]: value}`: the named field takes the value, the others keep theirs. */
  function WithField(form: FormData, field: Field, value: string): (r: FormData)
    ensures FieldValue(r, field) == value
    ensures forall other :: other != field ==> FieldValue(r, other) == FieldValue(form, other)
  {
    match field
    case Name => form.(name := value)
    case Email => form.(email := value)
    case CurrentPassword => form.(currentPassword := value)
    case NewPassword => form.(newPassword := value)
    case ConfirmPassword => form.(confirmPassword := value)
  }

  /** `s || ''` on an optional string. */
  function OrEmpty(s: Option<string>): (r: string)
    ensures Truthy(s) ==> r == s.value
    ensures !Truthy(s) ==> r == ""
  {
    if Truthy(s) then s.value else ""
  }

  /** What `loadUserInfo` does to the record and the form, given the store. */
  datatype Loaded = Loaded(userInfo: Option<UserRecord>, form: FormData)

  function Load(previous: Loaded, items: Items): (r: Loaded)
    ensures InfoKey in items && items[InfoKey].Record? ==>
              r.userInfo == Some(items[InfoKey].record) &&
              r.form == previous.form.(name := OrEmpty(items[InfoKey].record.name),
                                       email := OrEmpty(items[InfoKey].record.email))
    ensures !(InfoKey in items && items[InfoKey].Record?) ==> r == previous
  {
    if Present(items, InfoKey) then
      match Parse(items[InfoKey])
      case Some(data) => Loaded(Some(data), previous.form.(name := OrEmpty(data.name), email := OrEmpty(data.email)))
      case None => previous
    else previous
  }

  /**
    * `{...userInfo, name, email}`: the record with name and email taken from
    * the form; without a record, a record holding only those two.
    */
  function MergeProfile(info: Option<UserRecord>, form: FormData): (r: UserRecord)
    ensures r.name == Some(form.name) && r.email == Some(form.email)
    ensures info.Some? ==> r.isActive == info.value.isActive && r.createdAt == info.value.createdAt &&
                           r.subscription == info.value.subscription
    ensures info.None? ==> r.isActive.None? && r.createdAt.None? && r.subscription.None?
  {
    var base := if info.Some? then info.value else UserRecord(None, None, None, None, None);
    base.(name := Some(form.name), email := Some(form.email))
  }

  datatype PasswordOutcome = Mismatch | PasswordUpdated

  /** `handlePasswordUpdate` on the form: rejected unless new and confirmation agree, then the three fields cleared. */
  function PasswordUpdate(form: FormData): (r: (PasswordOutcome, FormData))
    ensures r.0 == Mismatch <==> form.newPassword != form.confirmPassword
    ensures r.0 == Mismatch ==> r.1 == form
    ensures r.0 == PasswordUpdated ==>
              r.1 == FormData(form.name, form.email, "", "", "")
  {
    if form.newPassword != form.confirmPassword then (Mismatch, form)
    else (PasswordUpdated, form.(currentPassword := "", newPassword := "", confirmPassword := ""))
  }

  /** The current password plays no part in the outcome. */
  lemma CurrentPasswordIgnored(form: FormData, anyCurrent: string)
    ensures PasswordUpdate(form.(currentPassword := anyCurrent)).0 == PasswordUpdate(form).0
    ensures PasswordUpdate(form.(currentPassword := anyCurrent)).1 ==
              (if PasswordUpdate(form).0 == Mismatch then form.(currentPassword := anyCurrent)
               else PasswordUpdate(form).1)
  {
  }

  datatype PlanDetails = PlanDetails(name: string, features: seq<string>, price: string)

  const FreePlan: PlanDetails := PlanDetails(
    "Free Plan", ["Basic avatar generation", "Standard quality", "Limited styles"], "$0/month")
  const ProPlan: PlanDetails := PlanDetails(
    "Pro Plan", ["HD avatar generation", "All styles", "Priority processing", "No watermarks"], "$9.99/month")
  const PremiumPlan: PlanDetails := PlanDetails(
    "Premium Plan",
    ["4K avatar generation", "All styles", "Priority processing", "No watermarks", "Custom styles", "API access"],
    "$19.99/month")

  /** `getPlanDetails`: pro and premium by name; `free` and every other string give the free plan. */
  function GetPlanDetails(plan: string): (r: PlanDetails)
    ensures plan == "pro" ==> r.name == "Pro Plan" && r.price == "$9.99/month" && |r.features| == 4
    ensures plan == "premium" ==> r.name == "Premium Plan" && r.price == "$19.99/month" && |r.features| == 6
    ensures plan != "pro" && plan != "premium" ==>
              r.name == "Free Plan" && r.price == "$0/month" && |r.features| == 3
  {
    match plan
    case "free" => FreePlan
    case "pro" => ProPlan
    case "premium" => PremiumPlan
    case _ => FreePlan
  }

  /** Unknown plans are shown exactly like the free one, and the three plans differ. */
  lemma PlanDetailsDistinct(plan: string)
    ensures plan != "pro" && plan != "premium" ==> GetPlanDetails(plan) == GetPlanDetails("free")
    ensures GetPlanDetails("free") != GetPlanDetails("pro") && GetPlanDetails("pro") != GetPlanDetails("premium")
    ensures GetPlanDetails("free") != GetPlanDetails("premium")
  {
  }

  /** `userInfo?.subscription?.plan || 'free'`: the plan whose details are shown. */
  function DisplayedPlan(info: Option<UserRecord>): (p: string)
    ensures p != ""
    ensures info.Some? && info.value.subscription.Some? && Truthy(info.value.subscription.value.plan) ==>
              p == info.value.subscription.value.plan.value
    ensures !(info.Some? && info.value.subscription.Some? && Truthy(info.value.subscription.value.plan)) ==>
              p == "free"
  {
    if info.Some? && info.value.subscription.Some? then
      var plan := info.value.subscription.value.plan;
      if Truthy(plan) then plan.value else "free"
    else "free"
  }

  /**
    * `userInfo?.subscription?.plan === 'free'`: the upgrade section, only for
    * a plan stored as literally `'free'`; a missing or empty plan is shown as
    * free but offered no upgrade.
    */
  predicate ShowsUpgrade(info: Option<UserRecord>): (b: bool)
    ensures b ==> DisplayedPlan(info) == "free"
    ensures b <==> info.Some? && info.value.subscription.Some? && info.value.subscription.value.plan == Some("free")
  {
    info.Some? && info.value.subscription.Some? && info.value.subscription.value.plan == Some("free")
  }

  /** The status badge. */
  function StatusLabel(info: Option<UserRecord>): (badge: string)
    ensures badge == "Active" <==>
              info.Some? && info.value.subscription.Some? && info.value.subscription.value.status == Some("active")
    ensures badge == "Active" || badge == "Inactive"
  {
    if info.Some? && info.value.subscription.Some? && info.value.subscription.value.status == Some("active")
    then "Active" else "Inactive"
  }

  /**
    * A user without a subscription is shown the free plan but not offered an
    * upgrade; a user on the stored free plan is offered one.
    */
  lemma FreePlanDisplayVersusUpgrade(info: Option<UserRecord>)
    ensures (info.None? || info.value.subscription.None?) ==>
              GetPlanDetails(DisplayedPlan(info)) == FreePlan && !ShowsUpgrade(info) && StatusLabel(info) == "Inactive"
    ensures ShowsUpgrade(info) ==> GetPlanDetails(DisplayedPlan(info)) == FreePlan
  {
  }

  class Page {
    var userInfo: Option<UserRecord>
    var isLoading: bool
    var isSaving: bool
    var formData: FormData

    constructor ()
      ensures userInfo.None? && isLoading && !isSaving && formData == EmptyForm
    {
      userInfo := None;
      isLoading := true;
      isSaving := false;
      formData := EmptyForm;
    }

    /** `loadUserInfo`: loading ends whether the record is absent, parses or not. */
    method LoadUserInfo(store: LocalStorage)
      modifies this
      ensures !isLoading && isSaving == old(isSaving)
      ensures Loaded(userInfo, formData) == Load(Loaded(old(userInfo), old(formData)), store.items)
    {
      var infoStr := store.GetItem(InfoKey);
      if infoStr.Some? && (infoStr.value.Record? || infoStr.value.text != "") {
        var parsed := Parse(infoStr.value);
        if parsed.Some? {
          var data := parsed.value;
          userInfo := Some(data);
          formData := formData.(name := OrEmpty(data.name), email := OrEmpty(data.email));
        }
      }
      isLoading := false;
    }

    /** `handleInputChange`. */
    method HandleInputChange(field: Field, value: string)
      modifies this
      ensures formData == WithField(old(formData), field, value)
      ensures userInfo == old(userInfo) && isSaving == old(isSaving) && isLoading == old(isLoading)
    {
      formData := WithField(formData, field, value);
    }

    /** `handleProfileUpdate`: stores and keeps the merged record. */
    method HandleProfileUpdate(store: LocalStorage)
      modifies this, store
      ensures store.items == old(store.items)[InfoKey := Record(MergeProfile(old(userInfo), old(formData)))]
      ensures userInfo == Some(MergeProfile(old(userInfo), old(formData)))
      ensures formData == old(formData) && !isSaving && isLoading == old(isLoading)
    {
      isSaving := true;
      var updated := MergeProfile(userInfo, formData);
      store.SetItem(InfoKey, Record(updated));
      userInfo := Some(updated);
      isSaving := false;
    }

    /** `handlePasswordUpdate`. */
    method HandlePasswordUpdate() returns (outcome: PasswordOutcome)
      modifies this
      ensures (outcome, formData) == PasswordUpdate(old(formData))
      ensures !isSaving && userInfo == old(userInfo) && isLoading == old(isLoading)
    {
      isSaving := true;
      if formData.newPassword != formData.confirmPassword {
        outcome := Mismatch;
        isSaving := false;
        return;
      }
      outcome := PasswordUpdated;
      formData := formData.(currentPassword := "", newPassword := "", confirmPassword := "");
      isSaving := false;
    }
  }
}
