/**
 * The generic hooks of `src/hooks/index.ts` that hold logic: `usePagination`,
 * `useSort`, `useFormValidation`, `useAsync`, the match test of `useKeyboard`
 * and `useToggle`. A hook's React state becomes the fields of a class; its
 * props (the data, the validation rules) are parameters or constants.
 */
module Hooks {
  import opened Wrappers
  import opened Strings
  import opened Sorting

  // ----- usePagination ---------------------------------------------------

  /** `Math.ceil(n / k)`: the fewest pages of `k` items that hold `n` items. */
  function TotalPages(n: nat, k: nat): (r: nat)
    requires k > 0
    ensures n <= r * k
    ensures r == 0 || (r - 1) * k < n
    ensures r == 0 <==> n == 0
  {
    var q := (n + k - 1) / k;
    assert q * k + (n + k - 1) % k == n + k - 1;
    assert (q - 1) * k == q * k - k;
    q
  }

  /** `Math.max(1, Math.min(page, totalPages))`. */
  function ClampPage(page: int, totalPages: nat): (r: int)
    ensures r >= 1
    ensures totalPages >= 1 ==> r <= totalPages
    ensures 1 <= page <= totalPages ==> r == page
    ensures page < 1 || totalPages == 0 ==> r == 1
    ensures page > totalPages && totalPages >= 1 ==> r == totalPages
  {
    var m := if page < totalPages then page else totalPages;
    if 1 < m then m else 1
  }

  /** `data.slice((page - 1) * k, (page - 1) * k + k)`: the items of page `page`. */
  function CurrentData<T>(data: seq<T>, page: int, k: nat): (r: seq<T>)
    requires page >= 1 && k > 0
    ensures |r| <= k
    ensures (page - 1) * k >= |data| ==> r == []
    ensures (page - 1) * k < |data| ==>
      |r| == (if page * k <= |data| then k else |data| - (page - 1) * k) &&
      forall i :: 0 <= i < |r| ==> r[i] == data[(page - 1) * k + i]
  {
    var start := (page - 1) * k;
    assert start + k == page * k;
    if start >= |data| then []
    else if start + k <= |data| then data[start..start + k]
    else data[start..]
  }

  /** The pages `1..count`, one after the other. */
  function PagesUpTo<T>(data: seq<T>, k: nat, count: nat): seq<T>
    requires k > 0
  {
    if count == 0 then [] else PagesUpTo(data, k, count - 1) + CurrentData(data, count, k)
  }

  /** Page `p` is the slice between `(p - 1)·k` and `p·k`, both clamped to the data. */
  lemma PageSlice<T>(data: seq<T>, p: int, k: nat, lo: int, hi: int)
    requires p >= 1 && k > 0
    requires lo == (p - 1) * k && hi == lo + k
    ensures lo >= 0
    ensures CurrentData(data, p, k) == data[(if lo <= |data| then lo else |data|)..(if hi <= |data| then hi else |data|)]
  {
  }

  lemma {:induction false} PagesUpToPrefix<T>(data: seq<T>, k: nat, count: nat)
    requires k > 0
    ensures PagesUpTo(data, k, count) == data[..if count * k <= |data| then count * k else |data|]
  {
    if count > 0 {
      var hi := count * k;
      var lo := hi - k;
      assert lo == (count - 1) * k;
      PagesUpToPrefix(data, k, count - 1);
      PageSlice(data, count, k, lo, hi);
      var a := if lo <= |data| then lo else |data|;
      var b := if hi <= |data| then hi else |data|;
      assert data[..b] == data[..a] + data[a..b];
    }
  }

  /** Paging loses and repeats nothing: the pages, in order, are the data. */
  lemma PagesCoverData<T>(data: seq<T>, k: nat)
    requires k > 0
    ensures PagesUpTo(data, k, TotalPages(|data|, k)) == data
  {
    PagesUpToPrefix(data, k, TotalPages(|data|, k));
  }

  /** `usePagination`'s state: the current page. The data is a prop, passed by its length. */
  class Pagination {
    const itemsPerPage: nat
    var currentPage: int

    ghost predicate Valid()
      reads this
    {
      itemsPerPage > 0 && currentPage >= 1
    }

    constructor (itemsPerPage: nat)
      requires itemsPerPage > 0
      ensures Valid() && this.itemsPerPage == itemsPerPage && currentPage == 1
    {
      this.itemsPerPage := itemsPerPage;
      currentPage := 1;
    }

    function HasNextPage(totalItems: nat): (r: bool)
      reads this
      requires Valid()
      ensures r <==> currentPage < TotalPages(totalItems, itemsPerPage)
    {
      currentPage < TotalPages(totalItems, itemsPerPage)
    }

    function HasPrevPage(): (r: bool)
      reads this
      ensures r <==> currentPage > 1
    {
      currentPage > 1
    }

    method GoToPage(page: int, totalItems: nat)
      requires Valid()
      modifies this`currentPage
      ensures Valid()
      ensures currentPage == ClampPage(page, TotalPages(totalItems, itemsPerPage))
    {
      currentPage := ClampPage(page, TotalPages(totalItems, itemsPerPage));
    }

    method NextPage(totalItems: nat)
      requires Valid()
      modifies this`currentPage
      ensures Valid()
      ensures currentPage == ClampPage(old(currentPage) + 1, TotalPages(totalItems, itemsPerPage))
      ensures old(HasNextPage(totalItems)) ==> currentPage == old(currentPage) + 1
    {
      GoToPage(currentPage + 1, totalItems);
    }

    method PrevPage(totalItems: nat)
      requires Valid()
      modifies this`currentPage
      ensures Valid()
      ensures currentPage == ClampPage(old(currentPage) - 1, TotalPages(totalItems, itemsPerPage))
      ensures old(HasPrevPage()) && old(currentPage) <= TotalPages(totalItems, itemsPerPage) ==>
        currentPage == old(currentPage) - 1
    {
      GoToPage(currentPage - 1, totalItems);
    }

    method FirstPage(totalItems: nat)
      requires Valid()
      modifies this`currentPage
      ensures Valid() && currentPage == 1
    {
      GoToPage(1, totalItems);
    }

    method LastPage(totalItems: nat)
      requires Valid()
      modifies this`currentPage
      ensures Valid()
      ensures currentPage == if totalItems == 0 then 1 else TotalPages(totalItems, itemsPerPage)
    {
      GoToPage(TotalPages(totalItems, itemsPerPage), totalItems);
    }
  }

  // ----- useSort ---------------------------------------------------------

  /**
   * `useSort`'s sort key and order. A key names a field; `field(key)` reads that
   * field of a row as a sortable value.
   */
  class SortState<K(==)> {
    var sortKey: Option<K>
    var sortOrder: Direction

    constructor (defaultSortKey: Option<K>, defaultSortOrder: Direction)
      ensures sortKey == defaultSortKey && sortOrder == defaultSortOrder
    {
      sortKey := defaultSortKey;
      sortOrder := defaultSortOrder;
    }

    /** `sortedData`: a sorted, stable copy, or the data as given when there is no key. */
    function SortedData<T>(data: seq<T>, field: K -> T -> Value): (r: seq<T>)
      reads this
      ensures multiset(r) == multiset(data)
      ensures sortKey.None? ==> r == data
      ensures sortKey.Some? ==> Sorted(r, field(sortKey.value), sortOrder) && Stable(r, data, field(sortKey.value))
    {
      if sortKey.None? then data else SortBy(data, field(sortKey.value), sortOrder)
    }

    /** `handleSort(key)`: the current key flips the order; another key sorts ascending by it. */
    method HandleSort(key: K)
      modifies this
      ensures old(sortKey) == Some(key) ==> sortKey == Some(key) && sortOrder == Flip(old(sortOrder))
      ensures old(sortKey) != Some(key) ==> sortKey == Some(key) && sortOrder == Asc
    {
      if sortKey == Some(key) {
        sortOrder := Flip(sortOrder);
      } else {
        sortKey := Some(key);
        sortOrder := Asc;
      }
    }
  }

  /** Sorting on one key twice in a row returns to the first order. */
  method HandleSortTwice<K(==)>(s: SortState<K>, key: K)
    modifies s
    ensures s.sortKey == Some(key)
    ensures old(s.sortKey) == Some(key) ==> s.sortOrder == old(s.sortOrder)
    ensures old(s.sortKey) != Some(key) ==> s.sortOrder == Desc
  {
    s.HandleSort(key);
    s.HandleSort(key);
  }

  // ----- useFormValidation -----------------------------------------------

  /** A validation rule: the field's value (`None` for `undefined`) to an error message or `null`. */
  type Rule<!V> = Option<V> -> Option<string>

  function Lookup<V>(values: map<string, V>, key: string): Option<V>
  {
    if key in values then Some(values[key]) else None
  }

  /** `validateField`: a field without a rule has no error. */
  function ValidateField<V>(rules: map<string, Rule<V>>, name: string, value: Option<V>): (r: Option<string>)
    ensures name !in rules ==> r == None
  {
    if name in rules then rules[name](value) else None
  }

  /**
   * The loop of `validateForm`: visits the rules' keys in order and records each
   * failing field's message. The result is valid exactly when no field fails.
   */
  method CollectErrors<V>(keys: seq<string>, rules: map<string, Rule<V>>, values: map<string, V>)
    returns (newErrors: map<string, Option<string>>, isValid: bool)
    ensures forall k :: k in newErrors <==> k in keys && Truthy(ValidateField(rules, k, Lookup(values, k))).Some?
    ensures forall k :: k in newErrors ==> newErrors[k] == ValidateField(rules, k, Lookup(values, k))
    ensures isValid <==> forall i :: 0 <= i < |keys| ==> Truthy(ValidateField(rules, keys[i], Lookup(values, keys[i]))).None?
  {
    newErrors := map[];
    isValid := true;
    var i := 0;
    while i < |keys|
      invariant 0 <= i <= |keys|
      invariant forall k :: k in newErrors <==> k in keys[..i] && Truthy(ValidateField(rules, k, Lookup(values, k))).Some?
      invariant forall k :: k in newErrors ==> newErrors[k] == ValidateField(rules, k, Lookup(values, k))
      invariant isValid <==> forall j :: 0 <= j < i ==> Truthy(ValidateField(rules, keys[j], Lookup(values, keys[j]))).None?
    {
      var key := keys[i];
      var error := ValidateField(rules, key, Lookup(values, key));
      if Truthy(error).Some? {
        newErrors := newErrors[key := error];
        isValid := false;
      }
      assert keys[..i + 1] == keys[..i] + [key];
      i := i + 1;
    }
    assert keys[..i] == keys;
  }

  /**
   * `isValid` as written: `Object.keys(errors).length === 0`. A key whose value
   * is `undefined` still counts as a key.
   */
  predicate IsValidAsWritten(errors: map<string, Option<string>>)
    ensures IsValidAsWritten(errors) <==> errors == map[]
  {
    |errors.Keys| == 0
  }

  /** `isValid` as evidently intended: no field holds an error message. */
  predicate NoErrors(errors: map<string, Option<string>>)
    ensures IsValidAsWritten(errors) ==> NoErrors(errors)
    ensures NoErrors(errors) ==> forall k :: k in errors ==> Truthy(errors[k]).None?
  {
    forall k :: k in errors ==> errors[k].None?
  }

  /** What `handleBlur` and a touched `handleChange` write into the errors for one field. */
  function RecordFieldError(errors: map<string, Option<string>>, name: string, error: Option<string>): (r: map<string, Option<string>>)
    ensures name in r && r[name] == Truthy(error)
    ensures forall k :: k != name ==> (k in r <==> k in errors) && (k in errors ==> r[k] == errors[k])
  {
    errors[name := Truthy(error)]
  }

  /** Blurring a field that passes its rule makes `isValid`, as written, false. */
  lemma BlurOfValidFieldAsWritten(name: string)
    ensures NoErrors(RecordFieldError(map[], name, None))
    ensures !IsValidAsWritten(RecordFieldError(map[], name, None))
  {
    assert name in RecordFieldError(map[], name, None).Keys;
  }

  /** With the intended test, recording a passing field keeps a valid form valid, and a failing one makes it invalid. */
  lemma RecordFieldErrorKeepsValid(errors: map<string, Option<string>>, name: string, error: Option<string>)
    ensures NoErrors(errors) && Truthy(error).None? ==> NoErrors(RecordFieldError(errors, name, error))
    ensures Truthy(error).Some? ==> !NoErrors(RecordFieldError(errors, name, error))
  {
  }

  /** After `validateForm` the intended test agrees with its result and with the test as written. */
  lemma ValidateFormAgrees(newErrors: map<string, Option<string>>)
    requires forall k :: k in newErrors ==> Truthy(newErrors[k]).Some?
    ensures NoErrors(newErrors) <==> IsValidAsWritten(newErrors)
  {
    if !IsValidAsWritten(newErrors) {
      var k :| k in newErrors;
      assert !newErrors[k].None?;
    }
  }

  /** `useFormValidation`'s values, errors and touched flags, over fixed rules. */
  class FormValidation<V> {
    const initialValues: map<string, V>
    const ruleKeys: seq<string>
    const rules: map<string, Rule<V>>
    var values: map<string, V>
    var errors: map<string, Option<string>>
    var touched: map<string, bool>

    /** `ruleKeys` is `Object.keys(validationRules)`: every rule's key, once each, in the object's order. */
    ghost predicate Valid()
      reads this
    {
      (forall k :: k in rules <==> k in ruleKeys) &&
      (forall i, j :: 0 <= i < j < |ruleKeys| ==> ruleKeys[i] != ruleKeys[j])
    }

    constructor (initialValues: map<string, V>, ruleKeys: seq<string>, rules: map<string, Rule<V>>)
      requires forall k :: k in rules <==> k in ruleKeys
      requires forall i, j :: 0 <= i < j < |ruleKeys| ==> ruleKeys[i] != ruleKeys[j]
      ensures Valid()
      ensures this.initialValues == initialValues && this.ruleKeys == ruleKeys && this.rules == rules
      ensures values == initialValues && errors == map[] && touched == map[]
    {
      this.initialValues := initialValues;
      this.ruleKeys := ruleKeys;
      this.rules := rules;
      values := initialValues;
      errors := map[];
      touched := map[];
    }

    /** `isValid`, the corrected test: no field holds a message, whether or not its key is present. */
    predicate IsValid()
      reads this
      ensures errors == map[] ==> IsValid()
      ensures IsValid() ==> forall k :: k in errors ==> Truthy(errors[k]).None?
    {
      NoErrors(errors)
    }

    method ValidateForm() returns (isValid: bool)
      requires Valid()
      modifies this`errors
      ensures forall k :: k in errors <==> k in rules && Truthy(rules[k](Lookup(values, k))).Some?
      ensures isValid <==> forall k :: k in rules ==> Truthy(rules[k](Lookup(values, k))).None?
      ensures forall k :: k in errors <==> k in ruleKeys && Truthy(ValidateField(rules, k, Lookup(values, k))).Some?
      ensures forall k :: k in errors ==> errors[k] == ValidateField(rules, k, Lookup(values, k))
      ensures isValid <==> forall i :: 0 <= i < |ruleKeys| ==> Truthy(ValidateField(rules, ruleKeys[i], Lookup(values, ruleKeys[i]))).None?
      ensures isValid <==> IsValid()
    {
      var newErrors;
      newErrors, isValid := CollectErrors(ruleKeys, rules, values);
      errors := newErrors;
      if !isValid {
        var i :| 0 <= i < |ruleKeys| && Truthy(ValidateField(rules, ruleKeys[i], Lookup(values, ruleKeys[i]))).Some?;
        assert ruleKeys[i] in errors;
      }
    }

    method HandleChange(name: string, value: V)
      modifies this`values, this`errors
      ensures values == old(values)[name := value]
      ensures errors == if name in touched && touched[name]
                        then RecordFieldError(old(errors), name, ValidateField(rules, name, Some(value)))
                        else old(errors)
    {
      values := values[name := value];
      if name in touched && touched[name] {
        errors := RecordFieldError(errors, name, ValidateField(rules, name, Some(value)));
      }
    }

    method HandleBlur(name: string)
      modifies this`touched, this`errors
      ensures touched == old(touched)[name := true]
      ensures errors == RecordFieldError(old(errors), name, ValidateField(rules, name, Lookup(values, name)))
    {
      touched := touched[name := true];
      errors := RecordFieldError(errors, name, ValidateField(rules, name, Lookup(values, name)));
    }

    method ResetForm()
      modifies this`values, this`errors, this`touched
      ensures values == initialValues && errors == map[] && touched == map[]
      ensures IsValid()
    {
      values := initialValues;
      errors := map[];
      touched := map[];
    }
  }

  // ----- useAsync --------------------------------------------------------

  datatype AsyncStatus = Idle | Pending | Success | Failure

  /** `useAsync`'s status, data and error. */
  class AsyncTask<T, E> {
    var status: AsyncStatus
    var data: Option<T>
    var error: Option<E>

    constructor ()
      ensures status == Idle && data == None && error == None
    {
      status := Idle;
      data := None;
      error := None;
    }

    /** Started and not yet settled. */
    function IsLoading(): (r: bool)
      reads this
      ensures r <==> status != Idle && status != Success && status != Failure
    {
      status == Pending
    }

    /** Settled by a rejection. */
    function IsError(): (r: bool)
      reads this
      ensures r <==> status != Idle && status != Pending && status != Success
    {
      status == Failure
    }

    /** Settled by a fulfilment. */
    function IsSuccess(): (r: bool)
      reads this
      ensures r <==> status != Idle && status != Pending && status != Failure
    {
      status == Success
    }

    /** The synchronous start of `execute`. */
    method Execute()
      modifies this
      ensures status == Pending && data == None && error == None
      ensures IsLoading() && !IsError() && !IsSuccess()
    {
      status := Pending;
      data := None;
      error := None;
    }

    /** The settling of `execute`'s promise; the returned outcome is what it resolves with or rethrows. */
    method Settle(outcome: Result<T, E>) returns (settled: Result<T, E>)
      requires status == Pending && data == None && error == None
      modifies this
      ensures settled == outcome
      ensures outcome.Ok? ==> status == Success && data == Some(outcome.value) && error == None
      ensures outcome.Err? ==> status == Failure && error == Some(outcome.error) && data == None
      ensures IsSuccess() <==> outcome.Ok?
      ensures IsError() <==> outcome.Err?
      ensures !IsLoading()
    {
      settled := outcome;
      match outcome
      case Ok(v) =>
        data := Some(v);
        status := Success;
      case Err(e) =>
        error := Some(e);
        status := Failure;
    }
  }

  /** The three flags of `useAsync` never hold together; none holds exactly when idle. */
  lemma AsyncFlags<T, E>(t: AsyncTask<T, E>)
    ensures !(t.IsLoading() && t.IsError()) && !(t.IsLoading() && t.IsSuccess()) && !(t.IsError() && t.IsSuccess())
    ensures !t.IsLoading() && !t.IsError() && !t.IsSuccess() <==> t.status == Idle
  {
  }

  // ----- useKeyboard -----------------------------------------------------

  datatype KeyOptions = KeyOptions(ctrl: Option<bool>, shift: Option<bool>, alt: Option<bool>, meta: Option<bool>)

  datatype KeyEvent = KeyEvent(key: string, ctrlKey: bool, shiftKey: bool, altKey: bool, metaKey: bool)

  /** The test in `useKeyboard`'s handler: the key, ignoring case, and each modifier as the options say (absent means up). */
  function KeyMatches(e: KeyEvent, key: string, options: KeyOptions): (r: bool)
    ensures r ==> |e.key| == |key|
    ensures r ==> (e.ctrlKey <==> options.ctrl == Some(true)) && (e.shiftKey <==> options.shift == Some(true)) &&
                  (e.altKey <==> options.alt == Some(true)) && (e.metaKey <==> options.meta == Some(true))
    ensures (e.key == key && (e.ctrlKey <==> options.ctrl == Some(true)) && (e.shiftKey <==> options.shift == Some(true)) &&
             (e.altKey <==> options.alt == Some(true)) && (e.metaKey <==> options.meta == Some(true))) ==> r
  {
    ToLower(e.key) == ToLower(key) &&
    e.ctrlKey == options.ctrl.GetOr(false) && e.shiftKey == options.shift.GetOr(false) &&
    e.altKey == options.alt.GetOr(false) && e.metaKey == options.meta.GetOr(false)
  }

  /** Only the case of letters is ignored: the shortcut fires for the key in either case, and with no modifier when none is asked for. */
  lemma {:induction false} KeyMatchesCase(key: string, eventKey: string)
    requires ToLower(eventKey) == ToLower(key)
    ensures KeyMatches(KeyEvent(eventKey, false, false, false, false), key, KeyOptions(None, None, None, None))
    ensures KeyMatches(KeyEvent(ToUpper(eventKey), false, false, false, false), key, KeyOptions(None, None, None, None))
    ensures !KeyMatches(KeyEvent(eventKey, true, false, false, false), key, KeyOptions(None, None, None, None))
  {
    assert ToLower(ToUpper(eventKey)) == ToLower(eventKey);
  }

  // ----- useToggle -------------------------------------------------------

  class Toggle {
    var value: bool

    constructor (initialValue: bool)
      ensures value == initialValue
    {
      value := initialValue;
    }

    method Toggle()
      modifies this
      ensures value == !old(value)
    {
      value := !value;
    }

    method SetToggle(v: bool)
      modifies this
      ensures value == v
    {
      value := v;
    }
  }

  /** `toggle` twice restores the value. */
  method ToggleTwice(t: Toggle)
    modifies t
    ensures t.value == old(t.value)
  {
    t.Toggle();
    t.Toggle();
  }
}
