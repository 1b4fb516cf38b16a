/**
 * What is observable of a command once it has run: a result, a map of
 * errors keyed by field (a CommandExecutionException), or some other Python
 * exception escaping from the command.
 */
module Commands {
  /** The keys the commands of this package put in their error maps. */
  datatype ErrorKey =
    | EmailKey | NameKey
    | StreetKey | NumberKey | QuarterKey | PostalcodeKey | TownKey | StateKey | ComplementKey
    | AccessDataKey | ItemNumberKey | ItemsKey
    | PagseguroKey | PaymentKey | NoReferenceKey

  /** The string each key is in the source's error dictionaries. */
  function KeyName(k: ErrorKey): string
  {
    match k
    case EmailKey => "email"
    case NameKey => "name"
    case StreetKey => "street"
    case NumberKey => "number"
    case QuarterKey => "quarter"
    case PostalcodeKey => "postalcode"
    case TownKey => "town"
    case StateKey => "state"
    case ComplementKey => "complement"
    case AccessDataKey => "access_data"
    case ItemNumberKey => "item_number"
    case ItemsKey => "items"
    case PagseguroKey => "pagseguro"
    case PaymentKey => "payment"
    case NoReferenceKey => "no_reference"
  }

  /** Distinct keys are distinct strings, so a map on keys is a map on the source's strings. */
  lemma KeyNameInjective(j: ErrorKey, k: ErrorKey)
    ensures KeyName(j) == KeyName(k) ==> j == k
  {
    if KeyName(j) == KeyName(k) {
      var s := KeyName(j);
      assert s[0] == KeyName(k)[0] && |s| == |KeyName(k)|;
    }
  }

  /** An error value: a message, or the per-item error maps of a validation. */
  datatype ErrorValue = Msg(text: string) | ItemErrors(maps: seq<map<string, string>>)

  type ErrorMap = map<ErrorKey, ErrorValue>

  datatype Outcome<T> =
    | Done(value: T)
    | Failed(errors: ErrorMap)
    | Raised(exception: string)
}
