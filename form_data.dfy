/**
 * The aggregate record collected by the wizard (`FormData` in MultiStepForm.tsx)
 * and the two reducers that merge one field change into it: the top-level
 * `updateFormData(field, value)` and the nested `cardInfo` merge passed to the
 * card step as `onCardInfoChange`.
 *
 * Field names are closed enumerations (`FormKey`, `CardKey`), and an edit is a
 * tagged value whose constructor names the field, so a field can only receive a
 * value of its own type and no unknown key can be created.
 */
module FormModel {
  import opened Optional

  datatype CardType = Credit | Debit

  /** `cardInfo`. The source's `type` field is called `kind` here (`type` is a Dafny keyword). */
  datatype CardInfo = CardInfo(
    kind: CardType,
    number: string,
    name: string,
    expiry: string,
    cvv: string,
    bank: Option<string>)

  datatype FormData = FormData(dni: string, cardInfo: CardInfo)

  /** The record the component starts with: empty `dni`, a credit card with empty fields and no bank. */
  function InitialFormData(): FormData {
    FormData("", CardInfo(Credit, "", "", "", "", None))
  }

  // ---------------------------------------------------------------------------
  // Nested `cardInfo` fields
  // ---------------------------------------------------------------------------

  /** The keys of `cardInfo`. */
  datatype CardKey = TypeKey | NumberKey | NameKey | ExpiryKey | CvvKey | BankKey

  /** What a `cardInfo` key holds: the card type, a string, or nothing (an absent `bank`). */
  datatype CardValue = KindValue(kind: CardType) | TextValue(text: string) | NoValue

  /** Reads `cardInfo[k]`. */
  function CardValueAt(c: CardInfo, k: CardKey): CardValue {
    match k
    case TypeKey => KindValue(c.kind)
    case NumberKey => TextValue(c.number)
    case NameKey => TextValue(c.name)
    case ExpiryKey => TextValue(c.expiry)
    case CvvKey => TextValue(c.cvv)
    case BankKey => if c.bank.Some? then TextValue(c.bank.value) else NoValue
  }

  /** One `onCardInfoChange(field, value)` call: the constructor is the field. */
  datatype CardEdit =
    | SetKind(newKind: CardType)
    | SetNumber(newNumber: string)
    | SetName(newName: string)
    | SetExpiry(newExpiry: string)
    | SetCvv(newCvv: string)
    | SetBank(newBank: string)
  {
    function Key(): CardKey {
      match this
      case SetKind(_) => TypeKey
      case SetNumber(_) => NumberKey
      case SetName(_) => NameKey
      case SetExpiry(_) => ExpiryKey
      case SetCvv(_) => CvvKey
      case SetBank(_) => BankKey
    }

    function Value(): CardValue {
      match this
      case SetKind(t) => KindValue(t)
      case SetNumber(s) => TextValue(s)
      case SetName(s) => TextValue(s)
      case SetExpiry(s) => TextValue(s)
      case SetCvv(s) => TextValue(s)
      case SetBank(s) => TextValue(s)
    }
  }

  /** Two card records that agree on every key are the same record. */
  lemma CardInfoExtensional(a: CardInfo, b: CardInfo)
    requires forall k :: CardValueAt(a, k) == CardValueAt(b, k)
    ensures a == b
  {
    assert CardValueAt(a, TypeKey) == CardValueAt(b, TypeKey);
    assert CardValueAt(a, NumberKey) == CardValueAt(b, NumberKey);
    assert CardValueAt(a, NameKey) == CardValueAt(b, NameKey);
    assert CardValueAt(a, ExpiryKey) == CardValueAt(b, ExpiryKey);
    assert CardValueAt(a, CvvKey) == CardValueAt(b, CvvKey);
    assert CardValueAt(a, BankKey) == CardValueAt(b, BankKey);
  }

  /**
   * The card step's change callback:
   * `prev => ({...prev, cardInfo: {...prev.cardInfo, [field]: value}})`.
   * The addressed key takes the new value; `dni` and every other card key keep theirs.
   */
  function MergeCardInfo(prev: FormData, e: CardEdit): (r: FormData)
    ensures r.dni == prev.dni
    ensures CardValueAt(r.cardInfo, e.Key()) == e.Value()
    ensures forall k :: k != e.Key() ==> CardValueAt(r.cardInfo, k) == CardValueAt(prev.cardInfo, k)
  {
    var c := prev.cardInfo;
    var c' := match e
      case SetKind(t) => c.(kind := t)
      case SetNumber(s) => c.(number := s)
      case SetName(s) => c.(name := s)
      case SetExpiry(s) => c.(expiry := s)
      case SetCvv(s) => c.(cvv := s)
      case SetBank(s) => c.(bank := Some(s));
    prev.(cardInfo := c')
  }

  /** Applying the same card edit twice is the same as applying it once. */
  lemma MergeCardInfoIdempotent(prev: FormData, e: CardEdit)
    ensures MergeCardInfo(MergeCardInfo(prev, e), e) == MergeCardInfo(prev, e)
  {
    var once := MergeCardInfo(prev, e);
    CardInfoExtensional(MergeCardInfo(once, e).cardInfo, once.cardInfo);
  }

  /** Of two edits to the same card key, the later one wins. */
  lemma MergeCardInfoLastWins(prev: FormData, e1: CardEdit, e2: CardEdit)
    requires e1.Key() == e2.Key()
    ensures MergeCardInfo(MergeCardInfo(prev, e1), e2) == MergeCardInfo(prev, e2)
  {
    CardInfoExtensional(MergeCardInfo(MergeCardInfo(prev, e1), e2).cardInfo, MergeCardInfo(prev, e2).cardInfo);
  }

  /** Edits to different card keys commute. */
  lemma MergeCardInfoCommutes(prev: FormData, e1: CardEdit, e2: CardEdit)
    requires e1.Key() != e2.Key()
    ensures MergeCardInfo(MergeCardInfo(prev, e1), e2) == MergeCardInfo(MergeCardInfo(prev, e2), e1)
  {
    CardInfoExtensional(
      MergeCardInfo(MergeCardInfo(prev, e1), e2).cardInfo,
      MergeCardInfo(MergeCardInfo(prev, e2), e1).cardInfo);
  }

  // ---------------------------------------------------------------------------
  // Top-level fields
  // ---------------------------------------------------------------------------

  /** The top-level keys of `FormData`. */
  datatype FormKey = DniKey | CardInfoKey

  datatype FormValue = DniValue(dniText: string) | CardInfoValue(card: CardInfo)

  /** Reads `formData[k]`. */
  function FieldAt(f: FormData, k: FormKey): FormValue {
    match k
    case DniKey => DniValue(f.dni)
    case CardInfoKey => CardInfoValue(f.cardInfo)
  }

  /** One `updateFormData(field, value)` call: the constructor is the field. */
  datatype FormEdit = SetDni(newDni: string) | SetCardInfo(newCardInfo: CardInfo)
  {
    function Key(): FormKey {
      match this
      case SetDni(_) => DniKey
      case SetCardInfo(_) => CardInfoKey
    }

    function Value(): FormValue {
      match this
      case SetDni(s) => DniValue(s)
      case SetCardInfo(c) => CardInfoValue(c)
    }
  }

  /** Two records that agree on every top-level key are the same record. */
  lemma FormDataExtensional(a: FormData, b: FormData)
    requires forall k :: FieldAt(a, k) == FieldAt(b, k)
    ensures a == b
  {
    assert FieldAt(a, DniKey) == FieldAt(b, DniKey);
    assert FieldAt(a, CardInfoKey) == FieldAt(b, CardInfoKey);
  }

  /**
   * `updateFormData`: `prev => ({...prev, [field]: value})`. The addressed key
   * takes the new value and the other key keeps its own.
   */
  function UpdateFormData(prev: FormData, e: FormEdit): (r: FormData)
    ensures FieldAt(r, e.Key()) == e.Value()
    ensures forall k :: k != e.Key() ==> FieldAt(r, k) == FieldAt(prev, k)
  {
    match e
    case SetDni(s) => prev.(dni := s)
    case SetCardInfo(c) => prev.(cardInfo := c)
  }

  /** Applying the same top-level edit twice is the same as applying it once. */
  lemma UpdateFormDataIdempotent(prev: FormData, e: FormEdit)
    ensures UpdateFormData(UpdateFormData(prev, e), e) == UpdateFormData(prev, e)
  {
    FormDataExtensional(UpdateFormData(UpdateFormData(prev, e), e), UpdateFormData(prev, e));
  }

  /** Setting `dni` (the only call the wizard makes) leaves the whole `cardInfo` as it was. */
  lemma SetDniKeepsCardInfo(prev: FormData, v: string)
    ensures UpdateFormData(prev, SetDni(v)).dni == v
    ensures UpdateFormData(prev, SetDni(v)).cardInfo == prev.cardInfo
  {
    assert FieldAt(UpdateFormData(prev, SetDni(v)), CardInfoKey) == FieldAt(prev, CardInfoKey);
  }
}
