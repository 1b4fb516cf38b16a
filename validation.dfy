/**
 * The forms and the validation command of gaepagseguro/validation_commands.py.
 * The string-length rules and their messages belong to the forms library; the
 * e-mail and CEP syntax checks of that library are parameters (FieldChecks),
 * and each item form arrives already validated (ItemCheck).
 */
module ValidationCommands {
  import opened Wrappers
  import opened Text
  import opened PagSegModel
  import opened Commands
  import opened Datastore
  import opened AdminCommands

  const RequiredMsg: string := "Required field"
  const InvalidEmailMsg: string := "Invalid email"
  const InvalidCepMsg: string := "CEP must have exactly 8 characters"
  const FullNameMsg: string := "Nome informado deve ser completo"
  const AccessDataMsg: string := "Must save access data before making payments"
  const ItemNumberMsg: string := "Should have one item at least"

  /** The syntax checks of EmailField and CepField, which this model does not define. */
  datatype FieldChecks = FieldChecks(emailOk: string -> bool, cepOk: string -> bool)

  /** The 61-character address of test_email_with_more_than_60_chars. */
  const LongEmail: string := "a@foo.com.br" + seq(49, _ => 'a')

  /** The verdicts on the sample values the validation tests rely on. */
  predicate AgreesWithExamples(c: FieldChecks)
  {
    && !c.emailOk("a") && !c.emailOk("a@") && !c.emailOk("a@foo") && !c.emailOk("a@foo.")
    && c.emailOk("a@foo.com") && c.emailOk(LongEmail)
    && c.cepOk("12345-678") && !c.cepOk("1234567")
  }

  /** The options of a StringField: required, min_len, max_len, exactly_len. */
  datatype LengthRule = LengthRule(required: bool, minLen: nat, maxLen: Option<nat>, exactLen: Option<nat>)

  const StreetRule: LengthRule := LengthRule(true, 0, Some(80), None)
  const NumberRule: LengthRule := LengthRule(true, 0, Some(20), None)
  const QuarterRule: LengthRule := LengthRule(true, 0, Some(60), None)
  const TownRule: LengthRule := LengthRule(true, 2, Some(60), None)
  const StateRule: LengthRule := LengthRule(true, 0, None, Some(2))
  const ComplementRule: LengthRule := LengthRule(false, 0, Some(40), None)
  const NameRule: LengthRule := LengthRule(true, 0, Some(50), None)
  const EmailMaxLen: nat := 60

  function TooLongMsg(n: nat, m: nat): string
  {
    "Has " + NatToString(n) + " characters and it must have " + NatToString(m) + " or less"
  }

  function TooShortMsg(n: nat, m: nat): string
  {
    "Has " + NatToString(n) + " characters and it must have " + NatToString(m) + " or more"
  }

  function NotExactlyMsg(n: nat, m: nat): string
  {
    "Has " + NatToString(n) + " characters and it must have exactly " + NatToString(m)
  }

  predicate WithinLength(rule: LengthRule, n: nat)
  {
    && (rule.exactLen.Some? ==> n == rule.exactLen.value)
    && (rule.maxLen.Some? ==> n <= rule.maxLen.value)
    && rule.minLen <= n
  }

  /** The error a StringField reports for `v`, if any; an empty optional field is valid. */
  function StringFieldError(rule: LengthRule, v: string): (r: Option<string>)
    ensures r.None? <==> if |v| == 0 then !rule.required else WithinLength(rule, |v|)
    ensures |v| == 0 && r.Some? ==> r.value == RequiredMsg
  {
    if |v| == 0 then
      (if rule.required then Some(RequiredMsg) else None)
    else if rule.exactLen.Some? && |v| != rule.exactLen.value then
      Some(NotExactlyMsg(|v|, rule.exactLen.value))
    else if rule.maxLen.Some? && |v| > rule.maxLen.value then
      Some(TooLongMsg(|v|, rule.maxLen.value))
    else if |v| < rule.minLen then
      Some(TooShortMsg(|v|, rule.minLen))
    else
      None
  }

  /** EmailField(required=True, max_len=60). */
  function EmailError(c: FieldChecks, v: string): (r: Option<string>)
    ensures r.None? <==> 0 < |v| <= EmailMaxLen && c.emailOk(v)
  {
    if |v| == 0 then Some(RequiredMsg)
    else if !c.emailOk(v) then Some(InvalidEmailMsg)
    else if |v| > EmailMaxLen then Some(TooLongMsg(|v|, EmailMaxLen))
    else None
  }

  /** CepField(required=True). */
  function CepError(c: FieldChecks, v: string): (r: Option<string>)
    ensures r.None? <==> |v| > 0 && c.cepOk(v)
  {
    if |v| == 0 then Some(RequiredMsg)
    else if !c.cepOk(v) then Some(InvalidCepMsg)
    else None
  }

  /**
   * `re.match(r'.+ .+', name)`: from the start, at least one character
   * other than a newline, a space, and one more character other than a newline.
   */
  predicate FullName(name: string)
  {
    exists i :: 1 <= i < |name| - 1 && name[i] == ' ' && name[i + 1] != '\n' && OneLine(name[..i])
  }

  /** No character of `s` is a newline (what `.` refuses to match). */
  predicate OneLine(s: string)
  {
    forall k :: 0 <= k < |s| ==> s[k] != '\n'
  }

  /** A full name has a space with a character on each side; on one line, that is also enough. */
  lemma FullNameMeansInnerSpace(name: string)
    ensures FullName(name) ==> |name| >= 3
    ensures OneLine(name) ==>
      (FullName(name) <==> exists i :: 1 <= i < |name| - 1 && name[i] == ' ')
  {
    if OneLine(name) && exists i :: 1 <= i < |name| - 1 && name[i] == ' ' {
      var i :| 1 <= i < |name| - 1 && name[i] == ' ';
      assert name[i + 1] != '\n';
      assert OneLine(name[..i]);
    }
  }

  lemma FullNameExamples()
    ensures FullName("Renzo Nuccitelli") && FullName("Jhon Doe")
    ensures !FullName("Renzo") && !FullName("")
  {
    assert "Renzo Nuccitelli"[5] == ' ' && "Renzo Nuccitelli"[6] != '\n';
    assert OneLine("Renzo Nuccitelli"[..5]);
    assert "Jhon Doe"[4] == ' ' && "Jhon Doe"[5] != '\n';
    assert OneLine("Jhon Doe"[..4]);
  }

  /** A one-entry error map for a field whose check failed, or the empty map. */
  function FieldError(field: ErrorKey, e: Option<string>): (r: map<ErrorKey, string>)
    ensures field in r <==> e.Some?
    ensures r.Keys <= {field}
    ensures e.Some? ==> r[field] == e.value
  {
    if e.Some? then map[field := e.value] else map[]
  }

  predicate ClientValid(c: FieldChecks, email: string, name: string)
  {
    0 < |email| <= EmailMaxLen && c.emailOk(email) && FullName(name) && |name| <= 50
  }

  /** ClientForm.validate: the field errors, with the full-name message replacing any name error. */
  function ClientErrors(c: FieldChecks, email: string, name: string): (r: map<ErrorKey, string>)
    ensures r.Keys <= {EmailKey, NameKey}
    ensures EmailKey in r <==> !(0 < |email| <= EmailMaxLen && c.emailOk(email))
    ensures NameKey in r <==> !FullName(name) || |name| > 50
    ensures !FullName(name) ==> r[NameKey] == FullNameMsg
    ensures r == map[] <==> ClientValid(c, email, name)
  {
    FullNameMeansInnerSpace(name);
    var base := FieldError(EmailKey, EmailError(c, email)) + FieldError(NameKey, StringFieldError(NameRule, name));
    if !FullName(name) then base[NameKey := FullNameMsg] else base
  }

  /** The AddressForm fields; `complement` is the string the form holds (its default is applied by the caller). */
  datatype Address = Address(street: string, number: string, quarter: string, postalcode: string,
                             town: string, state: string, complement: string)

  const AddressFields: set<ErrorKey> := {StreetKey, NumberKey, QuarterKey, PostalcodeKey, TownKey, StateKey, ComplementKey}

  /** What each AddressForm field demands of its value. */
  predicate AddressFieldValid(c: FieldChecks, a: Address, field: ErrorKey)
  {
    match field
    case StreetKey => 0 < |a.street| <= 80
    case NumberKey => 0 < |a.number| <= 20
    case QuarterKey => 0 < |a.quarter| <= 60
    case PostalcodeKey => |a.postalcode| > 0 && c.cepOk(a.postalcode)
    case TownKey => 2 <= |a.town| <= 60
    case StateKey => |a.state| == 2
    case ComplementKey => |a.complement| <= 40
    case _ => true
  }

  predicate AddressValid(c: FieldChecks, a: Address)
  {
    forall field :: field in AddressFields ==> AddressFieldValid(c, a, field)
  }

  /** The check of one AddressForm field; it reports an error exactly when the field is not valid. */
  function AddressFieldError(c: FieldChecks, a: Address, field: ErrorKey): (r: Option<string>)
    ensures r.None? <==> AddressFieldValid(c, a, field)
  {
    match field
    case StreetKey => StringFieldError(StreetRule, a.street)
    case NumberKey => StringFieldError(NumberRule, a.number)
    case QuarterKey => StringFieldError(QuarterRule, a.quarter)
    case PostalcodeKey => CepError(c, a.postalcode)
    case TownKey => StringFieldError(TownRule, a.town)
    case StateKey => StringFieldError(StateRule, a.state)
    case ComplementKey => StringFieldError(ComplementRule, a.complement)
    case _ => None
  }

  /** AddressForm.validate: every failing field is reported with its message, independently of the others. */
  function AddressErrors(c: FieldChecks, a: Address): (r: map<ErrorKey, string>)
    ensures forall field :: field in r <==> field in AddressFields && !AddressFieldValid(c, a, field)
    ensures forall field :: field in r ==> Some(r[field]) == AddressFieldError(c, a, field)
  {
    map field | field in AddressFields && AddressFieldError(c, a, field).Some? :: AddressFieldError(c, a, field).value
  }

  /** No address error is reported exactly when every field is valid. */
  lemma AddressErrorsEmpty(c: FieldChecks, a: Address)
    ensures AddressErrors(c, a) == map[] <==> AddressValid(c, a)
  {
    var r := AddressErrors(c, a);
    if r != map[] {
      var field :| field in r;
      assert !AddressFieldValid(c, a, field);
    }
  }

  /** A well-formed address of 61 characters is refused for its length alone. */
  lemma LongEmailExample(c: FieldChecks)
    requires AgreesWithExamples(c)
    ensures EmailError(c, LongEmail) == Some(TooLongMsg(61, 60))
  {
    assert |LongEmail| == 61;
  }

  /** The address of test_invalid_state, with a one-letter town and a three-letter state. */
  const BrokenAddress: Address := Address("", "", "Jardins", "", "a", "SPP", "apto 4")

  /** The fields test_invalid_state breaks are the ones reported. */
  lemma AddressErrorsExampleKeys(c: FieldChecks)
    requires AgreesWithExamples(c)
    ensures AddressErrors(c, BrokenAddress).Keys == {StreetKey, NumberKey, PostalcodeKey, TownKey, StateKey}
  {
    var r := AddressErrors(c, BrokenAddress);
    assert forall field :: field in r <==> field in {StreetKey, NumberKey, PostalcodeKey, TownKey, StateKey};
  }

  /** Each broken field of test_invalid_state carries its own message. */
  lemma AddressErrorsExampleMessages(c: FieldChecks)
    requires AgreesWithExamples(c)
    ensures var r := AddressErrors(c, BrokenAddress);
      && StreetKey in r && r[StreetKey] == RequiredMsg
      && TownKey in r && r[TownKey] == TooShortMsg(1, 2)
      && StateKey in r && r[StateKey] == NotExactlyMsg(3, 2)
  {
    assert AddressFieldError(c, BrokenAddress, StreetKey) == Some(RequiredMsg);
    assert AddressFieldError(c, BrokenAddress, TownKey) == Some(TooShortMsg(1, 2));
    assert AddressFieldError(c, BrokenAddress, StateKey) == Some(NotExactlyMsg(3, 2));
  }

  /** A validated ItemForm: its errors, and the item `fill_model` builds when there are none. */
  datatype ItemCheck = ItemCheck(errors: map<string, string>, model: Item)

  /** What a successful validation exposes to the commands after it. */
  datatype Validated = Validated(items: seq<Item>, accessData: AccessData, address: Address,
                                 clientName: string, clientEmail: string)

  function Messages(m: map<ErrorKey, string>): (r: ErrorMap)
    ensures r.Keys == m.Keys
    ensures forall k :: k in m ==> r[k] == Msg(m[k])
  {
    map k | k in m :: Msg(m[k])
  }

  /** `[c.errors for c in validate_item_cmds]`. */
  function ItemErrorsOf(checks: seq<ItemCheck>): (r: seq<map<string, string>>)
    ensures |r| == |checks| && forall i :: 0 <= i < |checks| ==> r[i] == checks[i].errors
  {
    seq(|checks|, i requires 0 <= i < |checks| => checks[i].errors)
  }

  /** `[c.form.fill_model() for c in validate_item_cmds]`. */
  function ModelsOf(checks: seq<ItemCheck>): (r: seq<Item>)
    ensures |r| == |checks| && forall i :: 0 <= i < |checks| ==> r[i] == checks[i].model
  {
    seq(|checks|, i requires 0 <= i < |checks| => checks[i].model)
  }

  predicate SomeItemFailed(checks: seq<ItemCheck>)
  {
    exists i :: 0 <= i < |checks| && checks[i].errors != map[]
  }

  /** `errors.update(client errors)` then `errors.update(address errors)`: a later entry wins. */
  function FieldMessages(client: map<ErrorKey, string>, address: map<ErrorKey, string>): (r: ErrorMap)
    ensures r.Keys == client.Keys + address.Keys
    ensures forall k :: k in address ==> r[k] == Msg(address[k])
    ensures forall k :: k in client && k !in address ==> r[k] == Msg(client[k])
  {
    Messages(client) + Messages(address)
  }

  const FormKeys: set<ErrorKey> := {EmailKey, NameKey} + AddressFields
  const ExtraKeys: set<ErrorKey> := {AccessDataKey, ItemNumberKey, ItemsKey}

  /** The entries the failure path adds after the field errors. */
  function ExtraErrors(checks: seq<ItemCheck>, access: Option<AccessData>): (r: ErrorMap)
    ensures r.Keys <= ExtraKeys
    ensures AccessDataKey in r <==> access.None?
    ensures access.None? ==> r[AccessDataKey] == Msg(AccessDataMsg)
    ensures ItemNumberKey in r <==> |checks| == 0
    ensures |checks| == 0 ==> r[ItemNumberKey] == Msg(ItemNumberMsg)
    ensures ItemsKey in r <==> SomeItemFailed(checks)
    ensures SomeItemFailed(checks) ==> r[ItemsKey] == ItemErrors(ItemErrorsOf(checks))
  {
    var withAccess: ErrorMap := if access.None? then map[AccessDataKey := Msg(AccessDataMsg)] else map[];
    var withNumber := if |checks| == 0 then withAccess[ItemNumberKey := Msg(ItemNumberMsg)] else withAccess;
    if SomeItemFailed(checks) then withNumber[ItemsKey := ItemErrors(ItemErrorsOf(checks))] else withNumber
  }

  /** The error map of the failure path: the merged field errors, then the extra entries. */
  function FailureErrors(fields: ErrorMap, checks: seq<ItemCheck>, access: Option<AccessData>): (r: ErrorMap)
    ensures r.Keys == fields.Keys + ExtraErrors(checks, access).Keys
    ensures forall k :: k in fields && k !in ExtraKeys ==> r[k] == fields[k]
    ensures forall k :: k in ExtraErrors(checks, access) ==> r[k] == ExtraErrors(checks, access)[k]
  {
    fields + ExtraErrors(checks, access)
  }

  /** The field errors of the client and the address forms never use the three extra keys. */
  lemma FormErrorsApart(c: FieldChecks, name: string, email: string, a: Address)
    ensures FieldMessages(ClientErrors(c, email, name), AddressErrors(c, a)).Keys <= FormKeys
  {
  }

  /** `access_data`, `item_number` and `items` are present exactly on their conditions, next to form errors. */
  lemma FailureErrorsExtras(fields: ErrorMap, checks: seq<ItemCheck>, access: Option<AccessData>)
    requires fields.Keys <= FormKeys
    ensures var r := FailureErrors(fields, checks, access);
      && (AccessDataKey in r <==> access.None?)
      && (access.None? ==> r[AccessDataKey] == Msg(AccessDataMsg))
      && (ItemNumberKey in r <==> |checks| == 0)
      && (|checks| == 0 ==> r[ItemNumberKey] == Msg(ItemNumberMsg))
      && (ItemsKey in r <==> SomeItemFailed(checks))
      && (SomeItemFailed(checks) ==> r[ItemsKey] == ItemErrors(ItemErrorsOf(checks)))
      && (forall k :: k in r && k in FormKeys ==> k in fields && r[k] == fields[k])
  {
    assert AccessDataKey !in fields && ItemNumberKey !in fields && ItemsKey !in fields;
  }

  /** The failure path yields an empty map exactly when no check failed. */
  lemma FailureErrorsEmpty(fields: ErrorMap, checks: seq<ItemCheck>, access: Option<AccessData>)
    requires fields.Keys <= FormKeys
    ensures FailureErrors(fields, checks, access) == map[] <==>
      fields == map[] && access.Some? && |checks| > 0 && !SomeItemFailed(checks)
  {
    var r := FailureErrors(fields, checks, access);
    if fields != map[] {
      var k :| k in fields;
      assert k in r;
    } else if access.None? {
      assert AccessDataKey in r;
    } else if |checks| == 0 {
      assert ItemNumberKey in r;
    } else if SomeItemFailed(checks) {
      assert ItemsKey in r;
    }
  }

  /** The merged field errors are empty exactly when both forms are valid. */
  lemma FieldMessagesEmpty(c: FieldChecks, name: string, email: string, a: Address)
    ensures FieldMessages(ClientErrors(c, email, name), AddressErrors(c, a)) == map[] <==>
      ClientValid(c, email, name) && AddressValid(c, a)
  {
    AddressErrorsEmpty(c, a);
    var client := ClientErrors(c, email, name);
    var address := AddressErrors(c, a);
    var r := FieldMessages(client, address);
    if client != map[] {
      var k :| k in client;
      assert k in r;
    } else if address != map[] {
      var k :| k in address;
      assert k in r;
    }
  }

  /** The error map of a failed validation of these inputs. */
  function ErrorsOf(c: FieldChecks, name: string, email: string, a: Address,
                    checks: seq<ItemCheck>, access: Option<AccessData>): ErrorMap
  {
    FailureErrors(FieldMessages(ClientErrors(c, email, name), AddressErrors(c, a)), checks, access)
  }

  /** Whether a child command of the parallel validation reported an error, as the source decides. */
  predicate AcceptsAsWritten(c: FieldChecks, name: string, email: string, a: Address,
                             checks: seq<ItemCheck>, access: Option<AccessData>)
  {
    ClientErrors(c, email, name) == map[] && AddressErrors(c, a) == map[] && access.Some? && !SomeItemFailed(checks)
  }

  /** ValidatePagseguroDataCmd as written: a list of no item cannot fail it. */
  function ValidateAsWritten(c: FieldChecks, name: string, email: string, a: Address,
                             checks: seq<ItemCheck>, access: Option<AccessData>): (r: Outcome<Validated>)
    ensures r.Done? <==>
      ClientValid(c, email, name) && AddressValid(c, a) && access.Some? &&
      forall i :: 0 <= i < |checks| ==> checks[i].errors == map[]
    ensures r.Done? ==> r.value == Validated(ModelsOf(checks), access.value, a, name, email)
    ensures r.Failed? ==> r.errors == ErrorsOf(c, name, email, a, checks, access)
    ensures !r.Raised?
  {
    if AcceptsAsWritten(c, name, email, a, checks, access) then
      Done(Validated(ModelsOf(checks), access.value, a, name, email))
    else
      Failed(ErrorsOf(c, name, email, a, checks, access))
  }

  /** With every other input valid, the validation as written accepts an order of no item. */
  lemma ZeroItemsAcceptedAsWritten(c: FieldChecks, name: string, email: string, a: Address, ad: AccessData)
    requires ClientValid(c, email, name) && AddressValid(c, a)
    ensures ValidateAsWritten(c, name, email, a, [], Some(ad)) == Done(Validated([], ad, a, name, email))
  {
  }

  predicate SampleEmail(e: string) { e == "a@foo.com" }
  predicate SampleCep(p: string) { p == "12345-678" }
  const SampleChecks: FieldChecks := FieldChecks(SampleEmail, SampleCep)

  /** The test suite's valid order, without its items, passes the validation as written. */
  lemma ZeroItemsCounterexample()
    ensures ValidateAsWritten(SampleChecks,
      "Renzo Nuccitelli", "a@foo.com",
      Address("Av Vicente de Carvalho", "2", "Jardins", "12345-678", "Sao Paulo", "SP", "apto 4"),
      [], Some(AccessData("renzo@gmail.com", "token_code"))).Done?
  {
    FullNameExamples();
  }

  /** The validation with the evident intent: an order needs at least one item. */
  predicate Accepts(c: FieldChecks, name: string, email: string, a: Address,
                    checks: seq<ItemCheck>, access: Option<AccessData>)
  {
    AcceptsAsWritten(c, name, email, a, checks, access) && |checks| > 0
  }

  function Validate(c: FieldChecks, name: string, email: string, a: Address,
                    checks: seq<ItemCheck>, access: Option<AccessData>): (r: Outcome<Validated>)
    ensures r.Done? <==>
      ClientValid(c, email, name) && AddressValid(c, a) && access.Some? && |checks| > 0 &&
      forall i :: 0 <= i < |checks| ==> checks[i].errors == map[]
    ensures r.Done? ==> r.value == Validated(ModelsOf(checks), access.value, a, name, email)
    ensures r.Failed? ==> r.errors == ErrorsOf(c, name, email, a, checks, access) && r.errors != map[]
    ensures |checks| == 0 ==> r.Failed? && r.errors[ItemNumberKey] == Msg(ItemNumberMsg)
    ensures !r.Raised?
  {
    if Accepts(c, name, email, a, checks, access) then
      Done(Validated(ModelsOf(checks), access.value, a, name, email))
    else
      var fields := FieldMessages(ClientErrors(c, email, name), AddressErrors(c, a));
      FormErrorsApart(c, name, email, a);
      FieldMessagesEmpty(c, name, email, a);
      FailureErrorsEmpty(fields, checks, access);
      FailureErrorsExtras(fields, checks, access);
      Failed(FailureErrors(fields, checks, access))
  }

  /**
   * The corrected validation differs from the code's own rule only on an
   * order of no item: with at least one item the two agree on every input.
   */
  lemma ValidateAgreesAsWritten(c: FieldChecks, name: string, email: string, a: Address,
                                checks: seq<ItemCheck>, access: Option<AccessData>)
    ensures |checks| > 0 ==> Validate(c, name, email, a, checks, access) == ValidateAsWritten(c, name, email, a, checks, access)
    ensures |checks| == 0 ==> Validate(c, name, email, a, checks, access).Failed?
  {
  }

  lemma UnionUpdate(m: ErrorMap, n: ErrorMap, k: ErrorKey, v: ErrorValue)
    ensures (m + n)[k := v] == m + n[k := v]
  {
  }

  /** ValidatePagseguroDataCmd: the parallel checks, then the error map when one of them failed. */
  method ValidatePagseguroData(store: Store, c: FieldChecks, name: string, email: string, a: Address,
                               checks: seq<ItemCheck>) returns (r: Outcome<Validated>)
    ensures r == Validate(c, name, email, a, checks, FirstOrNone(store.accessData))
    ensures |checks| > 0 ==> r == ValidateAsWritten(c, name, email, a, checks, FirstOrNone(store.accessData))
  {
    ValidateAgreesAsWritten(c, name, email, a, checks, FirstOrNone(store.accessData));
    var access := FindAccessData(store);
    if Accepts(c, name, email, a, checks, access) {
      r := Done(Validated(ModelsOf(checks), access.value, a, name, email));
    } else {
      var errors := CollectErrors(ClientErrors(c, email, name), AddressErrors(c, a), checks, access);
      r := Failed(errors);
    }
  }

  /** The `except CommandExecutionException` branch: merge the child errors, then the item errors if any item failed. */
  method CollectErrors(client: map<ErrorKey, string>, address: map<ErrorKey, string>,
                       checks: seq<ItemCheck>, access: Option<AccessData>) returns (errors: ErrorMap)
    ensures errors == FailureErrors(FieldMessages(client, address), checks, access)
  {
    errors := Messages(client) + Messages(address);
    ghost var fields := errors;
    ghost var extra: ErrorMap := map[];
    assert errors == fields + extra;
    if access.None? {
      UnionUpdate(fields, extra, AccessDataKey, Msg(AccessDataMsg));
      errors := errors[AccessDataKey := Msg(AccessDataMsg)];
      extra := extra[AccessDataKey := Msg(AccessDataMsg)];
    }
    if |checks| == 0 {
      UnionUpdate(fields, extra, ItemNumberKey, Msg(ItemNumberMsg));
      errors := errors[ItemNumberKey := Msg(ItemNumberMsg)];
      extra := extra[ItemNumberKey := Msg(ItemNumberMsg)];
    }
    ghost var before := errors;
    ghost var extraBefore := extra;
    var itemErrors := ItemErrorsOf(checks);
    ghost var broke := false;
    var i := 0;
    while i < |itemErrors|
      invariant 0 <= i <= |itemErrors|
      invariant forall j :: 0 <= j < i ==> itemErrors[j] == map[]
      invariant errors == before && extra == extraBefore && !broke
    {
      if itemErrors[i] != map[] {
        UnionUpdate(fields, extra, ItemsKey, ItemErrors(itemErrors));
        errors := errors[ItemsKey := ItemErrors(itemErrors)];
        extra := extra[ItemsKey := ItemErrors(itemErrors)];
        broke := true;
        assert SomeItemFailed(checks) && errors == fields + extra;
        break;
      }
      i := i + 1;
    }
    if broke {
      assert extra == extraBefore[ItemsKey := ItemErrors(ItemErrorsOf(checks))];
    } else {
      assert !SomeItemFailed(checks);
    }
    assert extra == ExtraErrors(checks, access);
  }
}
