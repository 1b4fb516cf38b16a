/**
 * gaepagseguro/connection_commands.py: the checkout request sent to the
 * gateway, the rule that accepts its answer, and GeneratePayment, which runs
 * validation, staging, contact and the status update in sequence and writes
 * the staged entities only when every step succeeded.
 */
module ConnectionCommands {
  import opened Wrappers
  import opened Text
  import opened PagSegModel
  import opened Commands
  import opened Datastore
  import opened AdminCommands
  import opened ValidationCommands
  import opened SaveCommands

  // ---------------------------------------------------------------------------
  // _make_params
  // ---------------------------------------------------------------------------

  /** The entries every checkout request carries. */
  datatype BaseParam =
    EmailParam | TokenParam | CurrencyParam | ReferenceParam | SenderNameParam | SenderEmailParam | ShippingTypeParam | RedirectUrlParam

  /** The four entries sent per item. */
  datatype ItemField = IdField | DescriptionField | AmountField | QuantityField

  /** The shipping entries sent with an address. */
  datatype ShippingParam =
    StreetParam | NumberParam | ComplementParam | DistrictParam | PostalCodeParam | CityParam | StateParam | CountryParam

  /** A key of the request dictionary; ParamName gives its text. */
  datatype ParamKey = Base(base: BaseParam) | ItemEntry(field: ItemField, index: nat) | Shipping(shipping: ShippingParam)

  function BaseName(b: BaseParam): string
  {
    match b
    case EmailParam => "email"
    case TokenParam => "token"
    case CurrencyParam => "currency"
    case ReferenceParam => "reference"
    case SenderNameParam => "senderName"
    case SenderEmailParam => "senderEmail"
    case ShippingTypeParam => "shippingType"
    case RedirectUrlParam => "redirectURL"
  }

  function FieldName(f: ItemField): string
  {
    match f
    case IdField => "itemId"
    case DescriptionField => "itemDescription"
    case AmountField => "itemAmount"
    case QuantityField => "itemQuantity"
  }

  function ShippingName(s: ShippingParam): string
  {
    match s
    case StreetParam => "shippingAddressStreet"
    case NumberParam => "shippingAddressNumber"
    case ComplementParam => "shippingAddressComplement"
    case DistrictParam => "shippingAddressDistrict"
    case PostalCodeParam => "shippingAddressPostalCode"
    case CityParam => "shippingAddressCity"
    case StateParam => "shippingAddressState"
    case CountryParam => "shippingAddressCountry"
  }

  /** The text of a key: `"itemId%s" % index` and its siblings for item entries. */
  function ParamName(k: ParamKey): string
  {
    match k
    case Base(b) => BaseName(b)
    case ItemEntry(f, i) => FieldName(f) + NatToString(i)
    case Shipping(s) => ShippingName(s)
  }

  /** The fixed entry names are told apart by their first letter and their length. */
  lemma BaseNamesApart(b: BaseParam, c: BaseParam)
    ensures |BaseName(b)| <= 12 && BaseName(b)[0] != 'i'
    ensures BaseName(b) == BaseName(c) ==> b == c
  {
    if BaseName(b) == BaseName(c) {
      assert BaseName(b)[0] == BaseName(c)[0] && |BaseName(b)| == |BaseName(c)|;
    }
  }

  /** The shipping names share a prefix and are told apart by the letter after it and their length. */
  lemma ShippingNamesApart(s: ShippingParam, t: ShippingParam)
    ensures |ShippingName(s)| > 15 && ShippingName(s)[0] != 'i'
    ensures ShippingName(s) == ShippingName(t) ==> s == t
  {
    if ShippingName(s) == ShippingName(t) {
      assert ShippingName(s)[15] == ShippingName(t)[15] && |ShippingName(s)| == |ShippingName(t)|;
    }
  }

  /** The fixed names differ from each other, and none starts like an item entry. */
  lemma FixedNamesApart(j: ParamKey, k: ParamKey)
    requires !j.ItemEntry? && !k.ItemEntry?
    ensures ParamName(j)[0] != 'i'
    ensures ParamName(j) == ParamName(k) ==> j == k
  {
    if j.Base? {
      BaseNamesApart(j.base, j.base);
      if k.Base? {
        BaseNamesApart(j.base, k.base);
      } else {
        ShippingNamesApart(k.shipping, k.shipping);
      }
    } else {
      ShippingNamesApart(j.shipping, j.shipping);
      if k.Base? {
        BaseNamesApart(k.base, k.base);
      } else {
        ShippingNamesApart(j.shipping, k.shipping);
      }
    }
  }

  lemma ItemNamesApart(f: ItemField, i: nat, g: ItemField, j: nat)
    ensures ParamName(ItemEntry(f, i))[0] == 'i'
    ensures ParamName(ItemEntry(f, i)) == ParamName(ItemEntry(g, j)) ==> f == g && i == j
  {
    var s, t := ParamName(ItemEntry(f, i)), ParamName(ItemEntry(g, j));
    assert s[0] == FieldName(f)[0];
    if s == t {
      assert s[4] == FieldName(f)[4] && t[4] == FieldName(g)[4];
      assert FieldName(f) == FieldName(g);
      assert s[|FieldName(f)|..] == NatToString(i) && t[|FieldName(g)|..] == NatToString(j);
      NatToStringInjective(i, j);
    }
  }

  /** Distinct keys have distinct texts, so the request dictionary has one entry per key. */
  lemma ParamNameInjective(j: ParamKey, k: ParamKey)
    ensures ParamName(j) == ParamName(k) ==> j == k
  {
    if j.ItemEntry? && k.ItemEntry? {
      ItemNamesApart(j.field, j.index, k.field, k.index);
    } else if j.ItemEntry? {
      ItemNamesApart(j.field, j.index, IdField, 0);
      FixedNamesApart(k, k);
    } else if k.ItemEntry? {
      ItemNamesApart(k.field, k.index, IdField, 0);
      FixedNamesApart(j, j);
    } else {
      FixedNamesApart(j, k);
    }
  }

  /** The value of a fixed entry. */
  function BaseValue(b: BaseParam, email: string, token: string, currency: string, redirectUrl: string,
                     clientName: string, clientEmail: string, reference: nat): string
  {
    match b
    case EmailParam => email
    case TokenParam => token
    case CurrencyParam => currency
    case ReferenceParam => NatToString(reference)
    case SenderNameParam => clientName
    case SenderEmailParam => clientEmail
    case ShippingTypeParam => "3"
    case RedirectUrlParam => redirectUrl
  }

  /** The id sent for an item: its reference's id, or the placeholder 9999 when it has none. */
  function ItemIdValue(item: Item): string
  {
    match item.reference
    case Some(id) => NatToString(id)
    case None => "9999"
  }

  /** The value of an item entry: the id, the description, the price with two decimals, the quantity. */
  function ItemValue(f: ItemField, item: Item): string
  {
    match f
    case IdField => ItemIdValue(item)
    case DescriptionField => item.description
    case AmountField => FormatCents(item.price)
    case QuantityField => IntToString(item.quantity)
  }

  /** The value of a shipping entry; the country is always Brazil. */
  function ShippingValue(s: ShippingParam, a: Address): string
  {
    match s
    case StreetParam => a.street
    case NumberParam => a.number
    case ComplementParam => a.complement
    case DistrictParam => a.quarter
    case PostalCodeParam => a.postalcode
    case CityParam => a.town
    case StateParam => a.state
    case CountryParam => "BRA"
  }

  /** The values sent read back as the item's fields and the payment's key. */
  lemma ValuesReadBack(item: Item, reference: nat)
    ensures ParseCents(ItemValue(AmountField, item)) == Some(item.price)
    ensures ParseInt(ItemValue(QuantityField, item)) == Some(item.quantity)
    ensures item.reference.Some? ==> ParseNat(ItemValue(IdField, item)) == item.reference
    ensures item.reference.None? ==> ItemValue(IdField, item) == "9999"
    ensures ParseNat(NatToString(reference)) == Some(reference)
  {
    CentsRoundTrip(item.price);
    IntRoundTrip(item.quantity);
    NatRoundTrip(reference);
    if item.reference.Some? {
      NatRoundTrip(item.reference.value);
    }
  }

  /** The fixed entries of a request. */
  function BaseEntries(email: string, token: string, currency: string, redirectUrl: string,
                       clientName: string, clientEmail: string, reference: nat): (r: map<ParamKey, string>)
    ensures forall k {:trigger k in r} :: k in r <==> k.Base?
    ensures forall k {:trigger r[k]} :: k in r ==> r[k] == BaseValue(k.base, email, token, currency, redirectUrl, clientName, clientEmail, reference)
  {
    assert forall k: ParamKey {:trigger k.base} :: k.Base? ==>
      (k.base == EmailParam || k.base == TokenParam || k.base == CurrencyParam || k.base == ReferenceParam ||
       k.base == SenderNameParam || k.base == SenderEmailParam || k.base == ShippingTypeParam || k.base == RedirectUrlParam);
    map[Base(EmailParam) := email, Base(TokenParam) := token, Base(CurrencyParam) := currency,
        Base(ReferenceParam) := NatToString(reference), Base(SenderNameParam) := clientName,
        Base(SenderEmailParam) := clientEmail, Base(ShippingTypeParam) := "3", Base(RedirectUrlParam) := redirectUrl]
  }

  /** The four entries of the item numbered `index`. */
  function ItemEntries(item: Item, index: nat): (r: map<ParamKey, string>)
    ensures forall k {:trigger k in r} :: k in r <==> k.ItemEntry? && k.index == index
    ensures forall k {:trigger r[k]} :: k in r ==> r[k] == ItemValue(k.field, item)
  {
    assert forall k: ParamKey {:trigger k.field} :: k.ItemEntry? ==>
      k.field == IdField || k.field == DescriptionField || k.field == AmountField || k.field == QuantityField;
    map[ItemEntry(IdField, index) := ItemIdValue(item), ItemEntry(DescriptionField, index) := item.description,
        ItemEntry(AmountField, index) := FormatCents(item.price),
        ItemEntry(QuantityField, index) := IntToString(item.quantity)]
  }

  /** The entries of all items, numbered from 1 in list order. */
  function ItemsEntries(items: seq<Item>): (r: map<ParamKey, string>)
    ensures forall k {:trigger k in r} :: k in r <==> k.ItemEntry? && 1 <= k.index <= |items|
    ensures forall k {:trigger r[k]} :: k in r ==> r[k] == ItemValue(k.field, items[k.index - 1])
    decreases |items|
  {
    if |items| == 0 then map[]
    else
      var earlier := ItemsEntries(items[..|items| - 1]);
      AppendItemEntries(items, earlier);
      earlier + ItemEntries(items[|items| - 1], |items|)
  }

  /** The entries of the last item extend those of the items before it. */
  lemma AppendItemEntries(items: seq<Item>, earlier: map<ParamKey, string>)
    requires |items| > 0
    requires forall k :: k in earlier <==> k.ItemEntry? && 1 <= k.index < |items|
    requires forall k :: k in earlier ==> earlier[k] == ItemValue(k.field, items[..|items| - 1][k.index - 1])
    ensures var r := earlier + ItemEntries(items[|items| - 1], |items|);
      && (forall k :: k in r <==> k.ItemEntry? && 1 <= k.index <= |items|)
      && (forall k :: k in r ==> r[k] == ItemValue(k.field, items[k.index - 1]))
  {
    AppendItemValues(items[..|items| - 1], items[|items| - 1], items, earlier);
  }

  /** The values of `earlier` extended with the entries of `last`, numbered after `init`. */
  lemma AppendItemValues(init: seq<Item>, last: Item, items: seq<Item>, earlier: map<ParamKey, string>)
    requires items == init + [last]
    requires forall k :: k in earlier ==> k.ItemEntry? && 1 <= k.index <= |init|
    requires forall k :: k in earlier ==> earlier[k] == ItemValue(k.field, init[k.index - 1])
    ensures var r := earlier + ItemEntries(last, |items|);
      forall k :: k in r ==> r[k] == ItemValue(k.field, items[k.index - 1])
  {
    var added := ItemEntries(last, |items|);
    var r := earlier + added;
    forall k | k in r
      ensures r[k] == ItemValue(k.field, items[k.index - 1])
    {
      if k !in added {
        assert items[k.index - 1] == init[k.index - 1];
      }
    }
  }

  /** The shipping entries of an address. */
  function ShippingEntries(a: Address): (r: map<ParamKey, string>)
    ensures forall k {:trigger k in r} :: k in r <==> k.Shipping?
    ensures forall k {:trigger r[k]} :: k in r ==> r[k] == ShippingValue(k.shipping, a)
  {
    assert forall k: ParamKey {:trigger k.shipping} :: k.Shipping? ==>
      (k.shipping == StreetParam || k.shipping == NumberParam || k.shipping == ComplementParam ||
       k.shipping == DistrictParam || k.shipping == PostalCodeParam || k.shipping == CityParam ||
       k.shipping == StateParam || k.shipping == CountryParam);
    map[Shipping(StreetParam) := a.street, Shipping(NumberParam) := a.number,
        Shipping(ComplementParam) := a.complement, Shipping(DistrictParam) := a.quarter,
        Shipping(PostalCodeParam) := a.postalcode, Shipping(CityParam) := a.town,
        Shipping(StateParam) := a.state, Shipping(CountryParam) := "BRA"]
  }

  /**
   * The request _make_params builds: the fixed entries, four entries per item
   * numbered from 1 in list order, and the shipping entries when an address is given.
   */
  function Request(email: string, token: string, redirectUrl: string, clientName: string, clientEmail: string,
                   reference: nat, items: seq<Item>, address: Option<Address>, currency: string): map<ParamKey, string>
  {
    var d := BaseEntries(email, token, currency, redirectUrl, clientName, clientEmail, reference) + ItemsEntries(items);
    if address.Some? then d + ShippingEntries(address.value) else d
  }

  /** The request as its three groups, which share no key. */
  lemma RequestGroups(email: string, token: string, redirectUrl: string, clientName: string, clientEmail: string,
                      reference: nat, items: seq<Item>, address: Option<Address>, currency: string)
    ensures var d := Request(email, token, redirectUrl, clientName, clientEmail, reference, items, address, currency);
      var base := BaseEntries(email, token, currency, redirectUrl, clientName, clientEmail, reference);
      var entries := ItemsEntries(items);
      && (forall k :: k in d <==> k in base || k in entries || (address.Some? && k in ShippingEntries(address.value)))
      && (forall k :: k in base ==> d[k] == base[k])
      && (forall k :: k in entries ==> d[k] == entries[k])
      && (address.Some? ==> forall k :: k in ShippingEntries(address.value) ==> d[k] == ShippingEntries(address.value)[k])
  {
    var base := BaseEntries(email, token, currency, redirectUrl, clientName, clientEmail, reference);
    var entries := ItemsEntries(items);
    DisjointMerge(base, entries, base + entries);
    if address.Some? {
      var shipping := ShippingEntries(address.value);
      DisjointMerge(base + entries, shipping, base + entries + shipping);
    }
  }

  /** The keys of the request: every fixed key, four per item numbered 1 to n, and the shipping keys with an address. */
  lemma RequestKeys(email: string, token: string, redirectUrl: string, clientName: string, clientEmail: string,
                    reference: nat, items: seq<Item>, address: Option<Address>, currency: string)
    ensures var d := Request(email, token, redirectUrl, clientName, clientEmail, reference, items, address, currency);
      forall k :: k in d <==> k.Base? || (k.ItemEntry? && 1 <= k.index <= |items|) || (k.Shipping? && address.Some?)
  {
    RequestGroups(email, token, redirectUrl, clientName, clientEmail, reference, items, address, currency);
  }

  /** Each fixed key carries its value. */
  lemma RequestBaseValue(email: string, token: string, redirectUrl: string, clientName: string, clientEmail: string,
                      reference: nat, items: seq<Item>, address: Option<Address>, currency: string, b: BaseParam)
    ensures var d := Request(email, token, redirectUrl, clientName, clientEmail, reference, items, address, currency);
      Base(b) in d && d[Base(b)] == BaseValue(b, email, token, currency, redirectUrl, clientName, clientEmail, reference)
  {
    var base := BaseEntries(email, token, currency, redirectUrl, clientName, clientEmail, reference);
    var entries := ItemsEntries(items);
    MergeKeepsLeft(base, entries, Base(b));
    if address.Some? {
      MergeKeepsLeft(base + entries, ShippingEntries(address.value), Base(b));
    }
  }

  /** The fields of item `i` (counting from 0) are sent under the number `i + 1`. */
  lemma RequestItemValue(email: string, token: string, redirectUrl: string, clientName: string, clientEmail: string,
                      reference: nat, items: seq<Item>, address: Option<Address>, currency: string, f: ItemField, i: nat)
    requires i < |items|
    ensures var d := Request(email, token, redirectUrl, clientName, clientEmail, reference, items, address, currency);
      ItemEntry(f, i + 1) in d && d[ItemEntry(f, i + 1)] == ItemValue(f, items[i])
  {
    var base := BaseEntries(email, token, currency, redirectUrl, clientName, clientEmail, reference);
    var entries := ItemsEntries(items);
    var key := ItemEntry(f, i + 1);
    MergeKeepsRight(base, entries, key);
    if address.Some? {
      MergeKeepsLeft(base + entries, ShippingEntries(address.value), key);
    }
  }

  /** With an address, each shipping key carries the address's field. */
  lemma RequestShippingValue(email: string, token: string, redirectUrl: string, clientName: string, clientEmail: string,
                      reference: nat, items: seq<Item>, address: Option<Address>, currency: string, s: ShippingParam)
    requires address.Some?
    ensures var d := Request(email, token, redirectUrl, clientName, clientEmail, reference, items, address, currency);
      Shipping(s) in d && d[Shipping(s)] == ShippingValue(s, address.value)
  {
    var base := BaseEntries(email, token, currency, redirectUrl, clientName, clientEmail, reference);
    MergeKeepsRight(base + ItemsEntries(items), ShippingEntries(address.value), Shipping(s));
  }

  // ---------------------------------------------------------------------------
  // The ISO-8859-1 encoding of the request values
  // ---------------------------------------------------------------------------

  /** Whether `unicode(v).encode('iso-8859-1')` succeeds: no character is above U+00FF. */
  predicate Latin1(s: string)
  {
    forall i :: 0 <= i < |s| ==> s[i] as int < 0x100
  }

  /** Every field of an address is encodable. */
  predicate AddressLatin1(a: Address)
  {
    Latin1(a.street) && Latin1(a.number) && Latin1(a.complement) && Latin1(a.quarter) &&
    Latin1(a.postalcode) && Latin1(a.town) && Latin1(a.state)
  }

  /**
   * `{k: unicode(v).encode('iso-8859-1') for k, v in params.iteritems()}`:
   * the request unchanged when every value encodes, UnicodeEncodeError otherwise.
   */
  function EncodeRequest(d: map<ParamKey, string>): (r: Outcome<map<ParamKey, string>>)
    ensures r.Done? <==> forall k :: k in d ==> Latin1(d[k])
    ensures r.Done? ==> r.value == d
    ensures !r.Done? ==> r == Raised("UnicodeEncodeError")
  {
    if forall k :: k in d ==> Latin1(d[k]) then Done(d) else Raised("UnicodeEncodeError")
  }

  lemma DigitsLatin1(s: string)
    requires AllDigits(s)
    ensures Latin1(s)
  {
    forall i | 0 <= i < |s|
      ensures s[i] as int < 0x100
    {
      assert IsDigit(s[i]);
    }
  }

  /** The texts the request computes (ids, amounts, quantities) are plain ASCII. */
  lemma ComputedTextsLatin1(n: nat, i: int, cents: int)
    ensures Latin1(NatToString(n)) && Latin1(IntToString(i)) && Latin1(FormatCents(cents))
  {
    DigitsLatin1(NatToString(n));
    DigitsLatin1(NatToString(if i < 0 then -i else i));
    var a := if cents < 0 then -cents else cents;
    DigitsLatin1(NatToString(a / 100));
    DigitsLatin1(TwoDigits(a % 100));
    var f := FormatCents(cents);
    var sign := if cents < 0 then "-" else "";
    assert f == sign + NatToString(a / 100) + "." + TwoDigits(a % 100);
    forall j | 0 <= j < |f|
      ensures f[j] as int < 0x100
    {
      if j < |sign| {
      } else if j < |sign| + |NatToString(a / 100)| {
        assert f[j] == NatToString(a / 100)[j - |sign|];
      } else if j == |sign| + |NatToString(a / 100)| {
      } else {
        assert f[j] == TwoDigits(a % 100)[j - |sign| - |NatToString(a / 100)| - 1];
      }
    }
    var t := IntToString(i);
    if i < 0 {
      forall j | 0 <= j < |t|
        ensures t[j] as int < 0x100
      {
        if j > 0 {
          assert t[j] == NatToString(-i)[j - 1];
        }
      }
    }
  }

  lemma BaseValueLatin1(b: BaseParam, email: string, token: string, currency: string, redirectUrl: string,
                        clientName: string, clientEmail: string, reference: nat)
    requires Latin1(email) && Latin1(token) && Latin1(redirectUrl) && Latin1(clientName) && Latin1(clientEmail) && Latin1(currency)
    ensures Latin1(BaseValue(b, email, token, currency, redirectUrl, clientName, clientEmail, reference))
  {
    ComputedTextsLatin1(reference, 0, 0);
    assert Latin1("3");
  }

  lemma ItemValueLatin1(f: ItemField, item: Item)
    requires Latin1(item.description)
    ensures Latin1(ItemValue(f, item))
  {
    ComputedTextsLatin1(if item.reference.Some? then item.reference.value else 0, item.quantity, item.price);
    assert Latin1("9999");
  }

  lemma ShippingValueLatin1(sp: ShippingParam, a: Address)
    requires AddressLatin1(a)
    ensures Latin1(ShippingValue(sp, a))
  {
    assert Latin1("BRA");
  }

  /**
   * The request encodes whenever the texts the caller supplies do: the
   * credentials, the client, the redirect URL, the item descriptions and the address.
   */
  lemma RequestEncodes(email: string, token: string, redirectUrl: string, clientName: string, clientEmail: string,
                       reference: nat, items: seq<Item>, address: Option<Address>, currency: string)
    requires Latin1(email) && Latin1(token) && Latin1(redirectUrl) && Latin1(clientName) && Latin1(clientEmail) && Latin1(currency)
    requires forall i :: 0 <= i < |items| ==> Latin1(items[i].description)
    requires address.Some? ==> AddressLatin1(address.value)
    ensures EncodeRequest(Request(email, token, redirectUrl, clientName, clientEmail, reference, items, address, currency)).Done?
  {
    var d := Request(email, token, redirectUrl, clientName, clientEmail, reference, items, address, currency);
    RequestKeys(email, token, redirectUrl, clientName, clientEmail, reference, items, address, currency);
    forall k | k in d
      ensures Latin1(d[k])
    {
      if k.Base? {
        RequestBaseValue(email, token, redirectUrl, clientName, clientEmail, reference, items, address, currency, k.base);
        BaseValueLatin1(k.base, email, token, currency, redirectUrl, clientName, clientEmail, reference);
      } else if k.ItemEntry? {
        RequestItemValue(email, token, redirectUrl, clientName, clientEmail, reference, items, address, currency, k.field, k.index - 1);
        ItemValueLatin1(k.field, items[k.index - 1]);
      } else {
        RequestShippingValue(email, token, redirectUrl, clientName, clientEmail, reference, items, address, currency, k.shipping);
        ShippingValueLatin1(k.shipping, address.value);
      }
    }
  }

  /** A client name outside Latin-1, such as one holding U+2019, makes the encoding raise. */
  lemma ClientNameBlocksEncoding(email: string, token: string, redirectUrl: string, clientName: string, clientEmail: string,
                                 reference: nat, items: seq<Item>, address: Option<Address>, currency: string)
    requires !Latin1(clientName)
    ensures EncodeRequest(Request(email, token, redirectUrl, clientName, clientEmail, reference, items, address, currency))
      == Raised("UnicodeEncodeError")
  {
    RequestBaseValue(email, token, redirectUrl, clientName, clientEmail, reference, items, address, currency, SenderNameParam);
  }

  /** So does an item description outside Latin-1, such as one holding the euro sign. */
  lemma DescriptionBlocksEncoding(email: string, token: string, redirectUrl: string, clientName: string, clientEmail: string,
                                  reference: nat, items: seq<Item>, address: Option<Address>, currency: string, i: nat)
    requires i < |items| && !Latin1(items[i].description)
    ensures EncodeRequest(Request(email, token, redirectUrl, clientName, clientEmail, reference, items, address, currency))
      == Raised("UnicodeEncodeError")
  {
    RequestItemValue(email, token, redirectUrl, clientName, clientEmail, reference, items, address, currency, DescriptionField, i);
  }

  /** _make_params, building the request entry by entry; the loop adds one item's entries per turn. */
  method MakeParams(email: string, token: string, redirectUrl: string, clientName: string, clientEmail: string,
                    reference: nat, items: seq<Item>, address: Option<Address>, currency: string)
    returns (d: map<ParamKey, string>)
    ensures d == Request(email, token, redirectUrl, clientName, clientEmail, reference, items, address, currency)
  {
    var entries: map<ParamKey, string> := map[];
    for i := 0 to |items|
      invariant entries == ItemsEntries(items[..i])
    {
      ItemsEntriesStep(items, i);
      entries := entries + ItemEntries(items[i], i + 1);
    }
    assert items[..|items|] == items;
    d := BaseEntries(email, token, currency, redirectUrl, clientName, clientEmail, reference) + entries;
    if address.Some? {
      d := d + ShippingEntries(address.value);
    }
  }

  lemma ItemsEntriesStep(items: seq<Item>, i: nat)
    requires i < |items|
    ensures ItemsEntries(items[..i + 1]) == ItemsEntries(items[..i]) + ItemEntries(items[i], i + 1)
  {
    assert items[..i + 1][..i] == items[..i];
  }

  /** A key of the right-hand dictionary keeps its value in a merge. */
  lemma MergeKeepsRight(a: map<ParamKey, string>, b: map<ParamKey, string>, k: ParamKey)
    requires k in b
    ensures k in a + b && (a + b)[k] == b[k]
  {
  }

  /** A key only the left-hand dictionary has keeps its value in a merge. */
  lemma MergeKeepsLeft(a: map<ParamKey, string>, b: map<ParamKey, string>, k: ParamKey)
    requires k in a && k !in b
    ensures k in a + b && (a + b)[k] == a[k]
  {
  }

  /** Merging two dictionaries without a common key keeps the entries of both. */
  lemma DisjointMerge(a: map<ParamKey, string>, b: map<ParamKey, string>, d: map<ParamKey, string>)
    requires d == a + b
    requires forall k :: k in a ==> k !in b
    ensures forall k :: k in d <==> k in a || k in b
    ensures forall k :: k in a ==> d[k] == a[k]
    ensures forall k :: k in b ==> d[k] == b[k]
  {
  }

  // ---------------------------------------------------------------------------
  // ContactPagseguro
  // ---------------------------------------------------------------------------

  /** The root element of a parsed answer and the text of its `code` child, if it has one. */
  datatype XmlRoot = XmlRoot(tag: string, code: Option<string>)

  /** An answer of the checkout service; `root` is the parse of `content`, none when it is not XML. */
  datatype HttpResponse = HttpResponse(statusCode: int, content: string, root: Option<XmlRoot>)

  /** The payment marked as sent, and the checkout code of the answer. */
  datatype Contacted = Contacted(payment: Payment, checkoutCode: string)

  const NotContactedMsg: string := "Not Contacted%s"

  /** The answer rejects the request: an HTTP error, `Unauthorized`, or an `errors` document. */
  predicate Rejected(resp: HttpResponse)
  {
    resp.statusCode != 200 || resp.content == "Unauthorized" || (resp.root.Some? && resp.root.value.tag == "errors")
  }

  /** The success condition: HTTP 200, a body other than `Unauthorized`, and an XML root not named `errors`. */
  predicate Accepted(resp: HttpResponse)
  {
    resp.statusCode == 200 && resp.content != "Unauthorized" && resp.root.Some? && resp.root.value.tag != "errors"
  }

  /**
   * ContactPagseguro.do_business on the service's answer (none when it could
   * not be reached). Success marks the payment sent and takes the checkout
   * code; the payment's own `code` is left as it was.
   */
  function Contact(response: Option<HttpResponse>, payment: Payment): (r: Outcome<Contacted>)
    ensures r.Done? <==> response.Some? && Accepted(response.value) && response.value.root.value.code.Some?
    ensures r.Done? ==> r.value.payment == payment.(status := SentToPagseguro)
    ensures r.Done? ==> r.value.checkoutCode == response.value.root.value.code.value
    ensures r.Failed? <==> response.None? || Rejected(response.value)
    ensures r.Failed? ==>
      r.errors == map[PagseguroKey := Msg(if response.None? then NotContactedMsg else response.value.content)]
  {
    match response
    case None => Failed(map[PagseguroKey := Msg(NotContactedMsg)])
    case Some(resp) =>
      if resp.statusCode == 200 && resp.content != "Unauthorized" then
        match resp.root
        case None => Raised("ParseError")
        case Some(root) =>
          if root.tag != "errors" then
            match root.code
            case Some(code) => Done(Contacted(payment.(status := SentToPagseguro), code))
            case None => Raised("AttributeError")
          else
            Failed(map[PagseguroKey := Msg(resp.content)])
      else
        Failed(map[PagseguroKey := Msg(resp.content)])
  }

  /** The three outcomes are exclusive and cover every answer: success and rejection never meet. */
  lemma AcceptedNotRejected(resp: HttpResponse)
    ensures Accepted(resp) ==> !Rejected(resp)
    ensures !Accepted(resp) && !Rejected(resp) ==> resp.root.None?
  {
  }

  // ---------------------------------------------------------------------------
  // GeneratePayment
  // ---------------------------------------------------------------------------

  /** The payment GeneratePayment leaves behind: sent to the gateway, priced at the sum of its items. */
  function SentPayment(items: seq<Item>): (p: Payment)
    ensures p.status == SentToPagseguro && p.total == Some(SumTotals(items))
    ensures p.code.None? && p.netAmount.None?
  {
    Payment(None, SentToPagseguro, Some(SumTotals(items)), None)
  }

  /**
   * Everything the chain writes for validated data `v` when the store's next
   * id is `next`: the payment takes `next`, its two logs `next + 1` and
   * `next + 2`, and the items the ids from `next + 3` on.
   */
  function PaymentBatch(owner: Owner, v: Validated, next: nat): seq<Entity>
  {
    StagedBatch(owner, v, next) + UpdatePaymentAndSaveLog(next, SentPayment(v.items), next + 2)
  }

  /**
   * What the data and arc steps write before the gateway is contacted: the
   * CREATED payment with its items, then its owner arc, first log and item arcs.
   */
  function StagedBatch(owner: Owner, v: Validated, next: nat): seq<Entity>
  {
    var saved := SavePagseguroData(v, next, next + 3);
    saved.batch + SavePaymentArcs(owner, saved, next + 1, next + 3)
  }

  /**
   * The tables once GeneratePayment has written everything for `v` at `next`:
   * the payment as sent, its items, its two logs with their arcs, the item
   * arcs and the owner arc.
   */
  function AfterGenerate(t: Tables, owner: Owner, v: Validated, next: nat): Tables
  {
    t.(payments := t.payments[next := SentPayment(v.items)],
       items := t.items + ItemMap(v.items, next + 3),
       logs := t.logs[next + 1 := Log(Created)][next + 2 := Log(SentToPagseguro)],
       logArcs := t.logArcs + [PaymentToLog(next, next + 1), PaymentToLog(next, next + 2)],
       itemArcs := t.itemArcs + ItemArcs(next, next + 3, |v.items|),
       ownerArcs := t.ownerArcs + [ToPayment(owner, next)])
  }

  /** The tables once the data and arc steps are written, before the status update. */
  function Staged(t: Tables, owner: Owner, v: Validated, next: nat): Tables
  {
    var saved := SavePagseguroData(v, next, next + 3);
    t.(payments := t.payments[next := saved.payment],
       items := t.items + ItemMap(v.items, next + 3),
       logs := t.logs[next + 1 := Log(Created)],
       logArcs := t.logArcs + [PaymentToLog(next, next + 1)],
       itemArcs := t.itemArcs + ItemArcs(next, next + 3, |v.items|),
       ownerArcs := t.ownerArcs + [ToPayment(owner, next)])
  }

  /** Writing the data and arc steps gives the tables Staged describes. */
  lemma StagedBatchWritten(t: Tables, owner: Owner, v: Validated, next: nat)
    ensures ApplyAll(t, StagedBatch(owner, v, next)) == Staged(t, owner, v, next)
  {
    var saved := SavePagseguroData(v, next, next + 3);
    var arcs := SavePaymentArcs(owner, saved, next + 1, next + 3);
    ApplyAllConcat(t, saved.batch, arcs);
    SavedDataWritten(t, v, next, next + 3);
    ArcsWritten(ApplyAll(t, saved.batch), owner, saved, next + 1, next + 3);
  }

  lemma StagedWritten(t: Tables, owner: Owner, v: Validated, next: nat)
    ensures ApplyAll(t, PaymentBatch(owner, v, next)) ==
      AfterUpdate(Staged(t, owner, v, next), next, SentPayment(v.items), next + 2)
  {
    var update := UpdatePaymentAndSaveLog(next, SentPayment(v.items), next + 2);
    ApplyAllConcat(t, StagedBatch(owner, v, next), update);
    StagedBatchWritten(t, owner, v, next);
    UpdateWritten(Staged(t, owner, v, next), next, SentPayment(v.items), next + 2);
  }

  /** After the steps before the gateway, the new payment is CREATED with the one CREATED log; no other history changes. */
  lemma StagedHistory(t: Tables, owner: Owner, v: Validated, next: nat, q: nat)
    requires TablesValid(t, next)
    ensures var u := Staged(t, owner, v, next);
      && u.payments[next].status == Created
      && History(u.logArcs, u.logs, q) == if q == next then [Created] else History(t.logArcs, t.logs, q)
  {
    var u := Staged(t, owner, v, next);
    assert u.logArcs == t.logArcs + [PaymentToLog(next, next + 1)] && u.logs == t.logs[next + 1 := Log(Created)];
    assert LogArcsResolve(t.logArcs, t.logs) && next + 1 !in t.logs;
    LogAppended(t.logArcs, t.logs, next, next + 1, Log(Created), q);
    if q == next {
      assert forall i :: 0 <= i < |t.logArcs| ==> t.logArcs[i].origin != next;
      HistoryOfUnlinked(t.logArcs, t.logs, next);
    }
  }

  /** Those steps keep every payment's last log equal to its status. */
  lemma StagedKeepsConsistent(t: Tables, owner: Owner, v: Validated, next: nat)
    requires TablesValid(t, next) && LogsConsistent(t)
    ensures LogsConsistent(Staged(t, owner, v, next))
  {
    var u := Staged(t, owner, v, next);
    forall q | q in u.payments
      ensures var h := History(u.logArcs, u.logs, q); |h| > 0 && h[|h| - 1] == u.payments[q].status
    {
      StagedHistory(t, owner, v, next, q);
      if q != next {
        assert q in t.payments && u.payments[q] == t.payments[q];
        assert History(u.logArcs, u.logs, q) == History(t.logArcs, t.logs, q);
      }
    }
  }

  /** Those steps keep the tables valid under the ids the chain reserved. */
  lemma StagedKeepsValid(t: Tables, owner: Owner, v: Validated, next: nat)
    requires TablesValid(t, next)
    ensures TablesValid(Staged(t, owner, v, next), next + 3 + |v.items|)
  {
    var u := Staged(t, owner, v, next);
    var g := AfterGenerate(t, owner, v, next);
    GenerateKeepsValid(t, owner, v, next);
    assert u.payments.Keys == g.payments.Keys && u.items == g.items && u.itemArcs == g.itemArcs && u.ownerArcs == g.ownerArcs;
    assert forall i :: 0 <= i < |t.logArcs| ==> u.logArcs[i] == t.logArcs[i];
  }

  /** Writing the whole batch gives the tables AfterGenerate describes. */
  lemma PaymentBatchWritten(t: Tables, owner: Owner, v: Validated, next: nat)
    ensures ApplyAll(t, PaymentBatch(owner, v, next)) == AfterGenerate(t, owner, v, next)
  {
    StagedWritten(t, owner, v, next);
    var s := Staged(t, owner, v, next);
    var u := AfterGenerate(t, owner, v, next);
    assert s.payments[next := SentPayment(v.items)] == u.payments;
    assert s.logArcs + [PaymentToLog(next, next + 2)] == u.logArcs;
  }

  /** Two fresh logs linked to a payment without logs make its history; no other history changes. */
  lemma TwoLogsAppended(arcs: seq<PaymentToLog>, logs: map<nat, Log>, p: nat, k1: nat, k2: nat, q: nat)
    requires LogArcsResolve(arcs, logs) && k1 !in logs && k2 !in logs && k1 != k2
    requires forall i :: 0 <= i < |arcs| ==> arcs[i].origin != p
    ensures History(arcs + [PaymentToLog(p, k1), PaymentToLog(p, k2)], logs[k1 := Log(Created)][k2 := Log(SentToPagseguro)], q)
      == if q == p then [Created, SentToPagseguro] else History(arcs, logs, q)
  {
    LogAppended(arcs, logs, p, k1, Log(Created), q);
    LogAppended(arcs + [PaymentToLog(p, k1)], logs[k1 := Log(Created)], p, k2, Log(SentToPagseguro), q);
    assert arcs + [PaymentToLog(p, k1)] + [PaymentToLog(p, k2)] == arcs + [PaymentToLog(p, k1), PaymentToLog(p, k2)];
    if q == p {
      HistoryOfUnlinked(arcs, logs, p);
    }
  }

  /** The new payment has two logs, CREATED then SENT_TO_PAGSEGURO; every other history is unchanged. */
  lemma GenerateHistory(t: Tables, owner: Owner, v: Validated, next: nat, q: nat)
    requires TablesValid(t, next)
    ensures var u := AfterGenerate(t, owner, v, next);
      History(u.logArcs, u.logs, q) == if q == next then [Created, SentToPagseguro] else History(t.logArcs, t.logs, q)
  {
    assert LogArcsResolve(t.logArcs, t.logs);
    TwoLogsAppended(t.logArcs, t.logs, next, next + 1, next + 2, q);
  }

  /** The whole chain keeps every payment's last log equal to its status. */
  lemma GenerateKeepsConsistent(t: Tables, owner: Owner, v: Validated, next: nat)
    requires TablesValid(t, next) && LogsConsistent(t)
    ensures LogsConsistent(AfterGenerate(t, owner, v, next))
  {
    var u := AfterGenerate(t, owner, v, next);
    forall q | q in u.payments
      ensures var h := History(u.logArcs, u.logs, q); |h| > 0 && h[|h| - 1] == u.payments[q].status
    {
      GenerateHistory(t, owner, v, next, q);
    }
  }

  /** The whole chain keeps the tables valid under the ids it reserved. */
  lemma GenerateKeepsValid(t: Tables, owner: Owner, v: Validated, next: nat)
    requires TablesValid(t, next)
    ensures TablesValid(AfterGenerate(t, owner, v, next), next + 3 + |v.items|)
  {
    GenerateKeysBelow(t, owner, v, next);
    GenerateLogArcsResolve(t, owner, v, next);
    GenerateItemArcsResolve(t, owner, v, next);
    GenerateOwnerArcsResolve(t, owner, v, next);
  }

  lemma GenerateKeysBelow(t: Tables, owner: Owner, v: Validated, next: nat)
    requires TablesValid(t, next)
    ensures var u := AfterGenerate(t, owner, v, next); var n := next + 3 + |v.items|;
      && (forall k :: k in u.payments ==> k < n)
      && (forall k :: k in u.items ==> k < n)
      && (forall k :: k in u.logs ==> k < n)
      && (forall k :: k in u.users ==> k < n)
  {
  }

  lemma GenerateLogArcsResolve(t: Tables, owner: Owner, v: Validated, next: nat)
    requires TablesValid(t, next)
    ensures var u := AfterGenerate(t, owner, v, next);
      forall i :: 0 <= i < |u.logArcs| ==> u.logArcs[i].origin in u.payments && u.logArcs[i].destination in u.logs
  {
    var u := AfterGenerate(t, owner, v, next);
    assert forall i :: 0 <= i < |t.logArcs| ==> u.logArcs[i] == t.logArcs[i];
  }

  lemma GenerateItemArcsResolve(t: Tables, owner: Owner, v: Validated, next: nat)
    requires TablesValid(t, next)
    ensures var u := AfterGenerate(t, owner, v, next);
      forall i :: 0 <= i < |u.itemArcs| ==> u.itemArcs[i].origin in u.payments && u.itemArcs[i].destination in u.items
  {
    var u := AfterGenerate(t, owner, v, next);
    assert forall i :: 0 <= i < |t.itemArcs| ==> u.itemArcs[i] == t.itemArcs[i];
    assert forall i :: |t.itemArcs| <= i < |u.itemArcs| ==>
      u.itemArcs[i] == PaymentToItem(next, next + 3 + (i - |t.itemArcs|));
  }

  lemma GenerateOwnerArcsResolve(t: Tables, owner: Owner, v: Validated, next: nat)
    requires TablesValid(t, next)
    ensures var u := AfterGenerate(t, owner, v, next);
      forall i :: 0 <= i < |u.ownerArcs| ==> u.ownerArcs[i].destination in u.payments
  {
    var u := AfterGenerate(t, owner, v, next);
    assert forall i :: 0 <= i < |t.ownerArcs| ==> u.ownerArcs[i] == t.ownerArcs[i];
  }

  /** The new payment's items are the validated items in order; every other payment keeps its items. */
  lemma GenerateItems(t: Tables, owner: Owner, v: Validated, next: nat, q: nat)
    requires TablesValid(t, next)
    ensures var u := AfterGenerate(t, owner, v, next);
      ItemsOf(u.itemArcs, u.items, q) == if q == next then v.items else ItemsOf(t.itemArcs, t.items, q)
  {
    assert ItemArcsResolve(t.itemArcs, t.items);
    ItemsAppended(t.itemArcs, t.items, v.items, next, next + 3, q);
  }

  /** The owner's payments gain the new one at the end; other owners keep theirs. */
  lemma GenerateOwners(t: Tables, owner: Owner, v: Validated, next: nat, o: Owner)
    ensures var u := AfterGenerate(t, owner, v, next);
      PaymentsOf(u.ownerArcs, o) == PaymentsOf(t.ownerArcs, o) + if o == owner then [next] else []
  {
    var arc := [ToPayment(owner, next)];
    PaymentsOfConcat(t.ownerArcs, arc, o);
    assert arc[..0] == [];
  }

  /** What a generated payment hands back: its key, the payment, and the checkout code of the answer. */
  datatype Generated = Generated(paymentKey: nat, payment: Payment, checkoutCode: string)

  /** The request GeneratePayment sends for validated data whose payment takes key `paymentKey`. */
  function GenerateRequest(v: Validated, redirectUrl: string, paymentKey: nat): map<ParamKey, string>
  {
    Request(v.accessData.email, v.accessData.token, redirectUrl, v.clientName, v.clientEmail,
            paymentKey, v.items, Some(v.address), "BRL")
  }

  /** The outcome of GeneratePayment once the gateway has answered. */
  function ContactOutcome(contact: Outcome<Contacted>, paymentKey: nat): (r: Outcome<Generated>)
    ensures r.Done? <==> contact.Done?
    ensures r.Done? ==> r.value == Generated(paymentKey, contact.value.payment, contact.value.checkoutCode)
    ensures contact.Failed? ==> r == Failed(contact.errors)
    ensures contact.Raised? ==> r == Raised(contact.exception)
  {
    match contact
    case Done(sent) => Done(Generated(paymentKey, sent.payment, sent.checkoutCode))
    case Failed(errors) => Failed(errors)
    case Raised(exception) => Raised(exception)
  }

  /** The data and arc steps: the CREATED payment, its items, its first log and its arcs, under fresh ids. */
  method CommitStaged(store: Store, owner: Owner, v: Validated)
    requires store.Valid()
    modifies store
    ensures store.Snapshot() == Staged(old(store.Snapshot()), owner, v, old(store.nextId))
    ensures store.nextId == old(store.nextId) + 3 + |v.items| && store.accessData == old(store.accessData)
    ensures store.Valid()
    ensures LogsConsistent(old(store.Snapshot())) ==> LogsConsistent(store.Snapshot())
  {
    var pk := store.nextId;
    ghost var t := store.Snapshot();
    var first := store.Reserve(3 + |v.items|);
    store.Commit(StagedBatch(owner, v, pk));
    StagedBatchWritten(t, owner, v, pk);
    StagedKeepsValid(t, owner, v, pk);
    if LogsConsistent(t) {
      StagedKeepsConsistent(t, owner, v, pk);
    }
  }

  /** UpdatePaymentAndSaveLog after an accepted answer: the payment as sent and its second log. */
  method CommitSent(store: Store, ghost t: Tables, owner: Owner, v: Validated, pk: nat)
    requires TablesValid(t, pk) && store.Snapshot() == Staged(t, owner, v, pk) && store.nextId == pk + 3 + |v.items|
    modifies store
    ensures store.Snapshot() == AfterGenerate(t, owner, v, pk)
    ensures store.nextId == old(store.nextId) && store.accessData == old(store.accessData)
    ensures store.Valid()
    ensures LogsConsistent(t) ==> LogsConsistent(store.Snapshot())
  {
    store.Commit(UpdatePaymentAndSaveLog(pk, SentPayment(v.items), pk + 2));
    UpdateWritten(Staged(t, owner, v, pk), pk, SentPayment(v.items), pk + 2);
    StagedWritten(t, owner, v, pk);
    PaymentBatchWritten(t, owner, v, pk);
    GenerateKeepsValid(t, owner, v, pk);
    if LogsConsistent(t) {
      GenerateKeepsConsistent(t, owner, v, pk);
    }
  }

  /**
   * GeneratePayment: validate; then the data and arc steps each commit, so
   * the CREATED payment, its items, its first log and its arcs are stored
   * before the gateway is contacted (the request carries the payment's key).
   * The request is encoded as ISO-8859-1 and sent; only an accepted answer
   * lets the last step write the payment as sent, with its second log.
   * `gateway` stands for the HTTP exchange with the checkout service.
   */
  method GeneratePayment(store: Store, c: FieldChecks, redirectUrl: string, name: string, email: string,
                         owner: Owner, a: Address, checks: seq<ItemCheck>,
                         gateway: map<ParamKey, string> -> Option<HttpResponse>)
    returns (r: Outcome<Generated>, request: Option<map<ParamKey, string>>)
    requires store.Valid()
    modifies store
    ensures store.Valid()
    ensures LogsConsistent(old(store.Snapshot())) ==> LogsConsistent(store.Snapshot())
    ensures store.accessData == old(store.accessData)
    ensures var validation := Validate(c, name, email, a, checks, FirstOrNone(old(store.accessData)));
      && (validation.Failed? ==>
            && r == Failed(validation.errors) && request.None?
            && store.Snapshot() == old(store.Snapshot()) && store.nextId == old(store.nextId))
      && (validation.Done? ==>
            var v := validation.value;
            var pk := old(store.nextId);
            && request == Some(GenerateRequest(v, redirectUrl, pk))
            && store.nextId == old(store.nextId) + 3 + |v.items|
            && (EncodeRequest(request.value).Raised? ==> r == Raised("UnicodeEncodeError"))
            && (EncodeRequest(request.value).Done? ==>
                  r == ContactOutcome(Contact(gateway(request.value), SavePagseguroData(v, pk, pk + 3).payment), pk))
            && (r.Done? ==> store.Snapshot() == AfterGenerate(old(store.Snapshot()), owner, v, pk))
            && (!r.Done? ==> store.Snapshot() == Staged(old(store.Snapshot()), owner, v, pk)))
  {
    var validated := ValidatePagseguroData(store, c, name, email, a, checks);
    if validated.Failed? {
      r, request := Failed(validated.errors), None;
      return;
    }
    var v := validated.value;
    var pk := store.nextId;
    var saved := SavePagseguroData(v, pk, pk + 3);
    ghost var t := store.Snapshot();
    CommitStaged(store, owner, v);
    var params := MakeParams(v.accessData.email, v.accessData.token, redirectUrl, v.clientName, v.clientEmail,
                             pk, v.items, Some(v.address), "BRL");
    request := Some(params);
    var encoded := EncodeRequest(params);
    if encoded.Raised? {
      r := Raised("UnicodeEncodeError");
      return;
    }
    var contact := Contact(gateway(params), saved.payment);
    r := ContactOutcome(contact, pk);
    if contact.Done? {
      CommitSent(store, t, owner, v, pk);
    }
  }
}
