/** The form helper `use_form`: live data against defaults, validation
    errors, and the submission lifecycle driven by the router's callbacks. */
module Form {
  import opened Base
  import opened Router

  /** An upload progress event, opaque to the form. */
  datatype Progress = Progress(loaded: nat, total: Option<nat>)

  /** The page a successful visit delivers, opaque to the form. */
  datatype Page = Page(component: string, url: string)

  /** The errors a submission throws or rejects with. */
  datatype FormError =
    | NotInBrowser
    | Processing                 // FormProcessingError
    | Canceled                   // FormCanceledError
    | Validation(errors: ErrorBag) // FormValidationError
  {
    function Message(): string {
      match this
      case NotInBrowser => "Form can only submit in a browser environment."
      case Processing => "The form is still processing."
      case Canceled => "The form was canceled."
      case Validation(_) => "The given data was invalid."
    }
  }

  /** The state of the promise one `submit` call returned. */
  datatype Outcome = Pending | Resolved(page: Page) | Rejected(error: FormError)

  /** `submit` either throws at once or returns the promise numbered `submission`. */
  datatype SubmitResult = Threw(error: FormError) | Started(submission: nat)

  /** The filter argument of `allErrors`/`errorsWhere`: a key prefix, an
      object with a `test` method, or nothing. */
  datatype Filter = Prefix(prefix: string) | Test(test: string -> bool) | NoFilter

  predicate Matches(f: Filter, key: string) {
    match f
    case Prefix(p) => p <= key
    case Test(t) => t(key)
    case NoFilter => true
  }

  /** The entries of `errors` whose key the filter accepts, in entry order. */
  function Where(errors: seq<ErrorEntry>, f: Filter): (r: seq<ErrorEntry>)
    ensures |r| <= |errors|
  {
    if errors == [] then []
    else
      var rest := Where(errors[1..], f);
      if Matches(f, errors[0].key) then [errors[0]] + rest else rest
  }

  /** Filtering keeps exactly the entries whose key matches. */
  lemma {:induction false} WhereMembers(errors: seq<ErrorEntry>, f: Filter)
    ensures forall x :: x in Where(errors, f) <==> x in errors && Matches(f, x.key)
  {
    if errors != [] {
      WhereMembers(errors[1..], f);
      assert errors == [errors[0]] + errors[1..];
    }
  }

  /** Filtering an error record gives an error record. */
  lemma {:induction false} WhereUnique(errors: seq<ErrorEntry>, f: Filter)
    requires UniqueKeys(errors)
    ensures UniqueKeys(Where(errors, f))
  {
    if errors != [] {
      WhereUnique(errors[1..], f);
      WhereMembers(errors[1..], f);
      var rest := Where(errors[1..], f);
      forall x | x in rest
        ensures x.key != errors[0].key
      {
        var k :| 0 <= k < |errors[1..]| && errors[1..][k] == x;
        assert errors[k + 1] == x;
      }
    }
  }

  /** All messages of the entries, in entry order, each array flattened. */
  function Flatten(errors: seq<ErrorEntry>): (r: seq<string>)
    ensures forall m :: m in r <==> exists i :: 0 <= i < |errors| && m in Messages(errors[i].value)
  {
    if errors == [] then []
    else
      var r := Messages(errors[0].value) + Flatten(errors[1..]);
      assert forall i :: 1 <= i < |errors| ==> errors[i] == errors[1..][i - 1];
      r
  }

  /** Filtering looks at the first entry, then at the rest. */
  lemma WhereCons(e: ErrorEntry, rest: seq<ErrorEntry>, f: Filter)
    ensures Where([e] + rest, f) == (if Matches(f, e.key) then [e] else []) + Where(rest, f)
  {
    assert ([e] + rest)[0] == e && ([e] + rest)[1..] == rest;
  }

  /** Filtering keeps the order of the entries. */
  lemma {:induction false} WhereAppend(a: seq<ErrorEntry>, b: seq<ErrorEntry>, f: Filter)
    ensures Where(a + b, f) == Where(a, f) + Where(b, f)
  {
    if a == [] {
      assert a + b == b;
    } else {
      var t := a[1..];
      assert a == [a[0]] + t && a + b == [a[0]] + (t + b);
      WhereCons(a[0], t + b, f);
      WhereCons(a[0], t, f);
      WhereAppend(t, b, f);
      var head := if Matches(f, a[0].key) then [a[0]] else [];
      assert head + (Where(t, f) + Where(b, f)) == (head + Where(t, f)) + Where(b, f);
    }
  }

  /** Without a filter, or with the empty prefix, every entry is kept. */
  lemma {:induction false} WhereAll(errors: seq<ErrorEntry>, f: Filter)
    requires f == NoFilter || f == Prefix("")
    ensures Where(errors, f) == errors
  {
    if errors != [] {
      WhereAll(errors[1..], f);
      assert errors == [errors[0]] + errors[1..];
    }
  }

  /** Flattening works entry by entry. */
  lemma {:induction false} FlattenAppend(a: seq<ErrorEntry>, b: seq<ErrorEntry>)
    ensures Flatten(a + b) == Flatten(a) + Flatten(b)
  {
    if a == [] {
      assert a + b == b;
    } else {
      assert (a + b)[1..] == a[1..] + b;
      FlattenAppend(a[1..], b);
    }
  }

  /** What `cloneDeep(defaults[field])` gives: `undefined` for a missing key. */
  function DefaultOf(defaults: Data, field: string): Value {
    if field in defaults then defaults[field] else Undefined
  }

  /** `reset(f1, ..., fn)`: those fields from the defaults, every other key as it was. */
  function ResetFields(data: Data, defaults: Data, fields: seq<string>): (r: Data)
    ensures r.Keys == data.Keys + (set f | f in fields)
    ensures forall k :: k in fields ==> r[k] == DefaultOf(defaults, k)
    ensures forall k :: k in data && k !in fields ==> r[k] == data[k]
    decreases |fields|
  {
    if fields == [] then data
    else
      var r := ResetFields(data[fields[0] := DefaultOf(defaults, fields[0])], defaults, fields[1..]);
      assert fields == [fields[0]] + fields[1..];
      assert (set f | f in fields) == {fields[0]} + (set f | f in fields[1..]);
      r
  }

  /** What the router receives for a submission. `delete` carries the
      payload as `options.data`, every other verb positionally;
      `preserveState` defaults to `'errors'`. */
  function Request(verb: Method, url: string, payload: Data, options: FormOptions): (r: Submission)
    ensures r.verb == verb && r.url == url && r.other == options.other
    ensures options.preserveState.None? ==> r.preserveState == PreserveErrors
    ensures options.preserveState.Some? ==> r.preserveState == options.preserveState.value
    ensures verb == Delete <==> r.payload.None?
    ensures verb == Delete <==> r.data.Some?
    ensures SentPayload(r) == payload
  {
    var preserve := options.preserveState.GetOr(PreserveErrors);
    if verb == Delete then Submission(verb, url, None, preserve, options.other, Some(payload))
    else Submission(verb, url, Some(payload), preserve, options.other, None)
  }

  /** The data a submission carries, wherever it travels. */
  function SentPayload(s: Submission): Data
    requires s.payload.Some? || s.data.Some?
  {
    if s.data.Some? then s.data.value else s.payload.value
  }

  /** A promise settles once; later resolve/reject calls are ignored. */
  function Settle(o: Outcome, final: Outcome): (r: Outcome)
    ensures o.Pending? ==> r == final
    ensures !o.Pending? ==> r == o
  {
    if o.Pending? then final else o
  }

  /** Once settled, a promise keeps its outcome through any later settling. */
  lemma SettleOnce(o: Outcome, first: Outcome, later: Outcome)
    requires !first.Pending?
    ensures Settle(Settle(o, first), later) == Settle(o, first)
    ensures o.Pending? ==> Settle(Settle(o, first), later) == first
  {
  }

  function MethodName(m: Method): string {
    match m
    case Get => "get"
    case Post => "post"
    case Put => "put"
    case Patch => "patch"
    case Delete => "delete"
  }

  /** The router verb a method string names, if any. */
  function ParseMethod(s: string): (r: Option<Method>)
    ensures r.Some? ==> MethodName(r.value) == s
  {
    if s == "get" then Some(Get)
    else if s == "post" then Some(Post)
    else if s == "put" then Some(Put)
    else if s == "patch" then Some(Patch)
    else if s == "delete" then Some(Delete)
    else None
  }

  lemma ParseMethodName(m: Method)
    ensures ParseMethod(MethodName(m)) == Some(m)
  {
  }

  /** Every verb's name parses back to that verb. */
  lemma ParseMethodNames()
    ensures forall m :: ParseMethod(MethodName(m)) == Some(m)
  {
    forall m: Method
      ensures ParseMethod(MethodName(m)) == Some(m)
    {
      ParseMethodName(m);
    }
  }

  /** The form element action's target: the explicit url unless empty, else
      the element's `action`; the explicit method, else the element's
      `method` lower-cased, else `'get'`. The method string is parsed into a
      router verb; `None` stands for a method the router has no verb for. */
  function ActionTarget(url: Option<string>, verb: Option<Method>, nodeAction: string, nodeMethod: string)
    : (r: (string, Option<Method>))
    ensures url.Some? && url.value != "" ==> r.0 == url.value
    ensures url.None? || url.value == "" ==> r.0 == nodeAction
    ensures verb.Some? ==> r.1 == verb
    ensures verb.None? && nodeMethod == "" ==> r.1 == Some(Get)
    ensures verb.None? && nodeMethod != "" ==> r.1 == ParseMethod(Lower(nodeMethod))
    ensures verb.None? && nodeMethod != "" && r.1.Some? ==> Lower(nodeMethod) == MethodName(r.1.value)
    ensures verb.None? && nodeMethod != "" ==> forall m :: Lower(nodeMethod) == MethodName(m) ==> r.1 == Some(m)
  {
    ParseMethodNames();
    var target := if url.Some? && url.value != "" then url.value else nodeAction;
    var m := if verb.Some? then verb
             else if Lower(nodeMethod) != "" then ParseMethod(Lower(nodeMethod))
             else Some(Get);
    (target, m)
  }

  class Form {
    const browser: bool
    const router: Router
    /** The remember key; the remember operations exist only when it is
        present and non-empty. */
    const rememberKey: Option<string>

    var defaults: Data
    var data: Data
    var errors: ErrorBag
    var processing: bool
    var progress: Option<Progress>
    var wasSuccessful: bool
    var wasFailed: bool
    var cancelToken: Option<Token>
    var transform: Data -> Data
    var remember: Data -> Data
    /** The promise of every submission made so far. */
    var promises: seq<Outcome>

    /** A form never reports success and failure at once. */
    ghost predicate Valid()
      reads this
    {
      !(wasSuccessful && wasFailed)
    }

    predicate HasRemember() {
      rememberKey.Some? && rememberKey.value != ""
    }

    /** `dirty`: data differs structurally from the defaults. */
    function Dirty(): bool
      reads this
    {
      data != defaults
    }

    /** `allErrors(filter)`: the messages of the matching entries, flattened. */
    function AllErrors(filter: Filter): (r: seq<string>)
      reads this
      ensures r == Flatten(ErrorsWhere(filter))
      ensures forall m :: m in r <==>
        exists i :: 0 <= i < |errors| && Matches(filter, errors[i].key) && m in Messages(errors[i].value)
    {
      var w := Where(errors, filter);
      WhereMembers(errors, filter);
      assert forall i :: 0 <= i < |w| ==> w[i] in errors;
      assert forall i :: 0 <= i < |errors| && Matches(filter, errors[i].key) ==> errors[i] in w;
      Flatten(w)
    }

    /** `errorsWhere(filter)`: the matching entries with their values. */
    function ErrorsWhere(filter: Filter): (r: ErrorBag)
      reads this
      ensures forall x :: x in r <==> x in errors && Matches(filter, x.key)
    {
      WhereUnique(errors, filter);
      WhereMembers(errors, filter);
      Where(errors, filter)
    }

    /** The remember slots after `store()`: off-browser, or without a remember
        key, nothing is written. */
    function StoredSlots(): map<string, Snapshot>
      reads this, router
    {
      if HasRemember() && browser
      then router.remembered[rememberKey.value := Snapshot(remember(data), errors)]
      else router.remembered
    }

    /** `useForm(defaults, rememberKey)`; with a remember key the slot is
        restored once, at construction. */
    constructor (defaults: Data, rememberKey: Option<string>, browser: bool, router: Router)
      ensures Valid()
      ensures this.defaults == defaults && this.rememberKey == rememberKey
      ensures this.browser == browser && this.router == router
      ensures !processing && progress == None && !wasSuccessful && !wasFailed
      ensures cancelToken == None && promises == []
      ensures forall d :: transform(d) == d && remember(d) == d
      ensures HasRemember() && browser && rememberKey.value in router.remembered ==>
        data == router.remembered[rememberKey.value].data && errors == router.remembered[rememberKey.value].errors
      ensures !(HasRemember() && browser && rememberKey.value in router.remembered) ==>
        data == defaults && errors == [] && !Dirty()
    {
      this.browser := browser;
      this.router := router;
      this.rememberKey := rememberKey;
      this.defaults := defaults;
      data := defaults;
      errors := [];
      processing := false;
      progress := None;
      wasSuccessful, wasFailed := false, false;
      cancelToken := None;
      transform := (d: Data) => d;
      remember := (d: Data) => d;
      promises := [];
      new;
      if HasRemember() {
        Restore();
      }
    }

    /** `restore()`: a stored slot replaces data and errors; an absent slot,
        or running off-browser, changes nothing. */
    method Restore()
      requires HasRemember()
      modifies this`data, this`errors
      ensures browser && rememberKey.value in router.remembered ==>
        data == router.remembered[rememberKey.value].data && errors == router.remembered[rememberKey.value].errors
      ensures !(browser && rememberKey.value in router.remembered) ==>
        data == old(data) && errors == old(errors)
    {
      if !browser {
        return;
      }
      var key := rememberKey.value;
      if key in router.remembered {
        data := router.remembered[key].data;
        errors := router.remembered[key].errors;
      }
    }

    /** `store()`: writes the remembered copy of data and a copy of errors
        to the slot; a no-op off-browser. */
    method Store()
      requires HasRemember()
      modifies router`remembered
      ensures router.remembered == old(StoredSlots())
      ensures browser ==> router.remembered[rememberKey.value] == Snapshot(remember(data), errors)
      ensures !browser ==> router.remembered == old(router.remembered)
    {
      if !browser {
        return;
      }
      router.remembered := router.remembered[rememberKey.value := Snapshot(remember(data), errors)];
    }

    /** `submit(method, url, options)`. Off-browser, or while processing, it
        throws before storing or calling the router. Otherwise it stores,
        sends `transform` of a copy of data, and returns a pending promise;
        data itself is untouched. */
    method Submit(verb: Method, url: string, options: FormOptions) returns (r: SubmitResult)
      modifies router`remembered, router`submissions, this`promises
      ensures !browser ==> r == Threw(NotInBrowser)
      ensures browser && processing ==> r == Threw(Processing)
      ensures r.Threw? ==>
        promises == old(promises) && router.remembered == old(router.remembered)
        && router.submissions == old(router.submissions)
      ensures browser && !processing ==>
        && r == Started(|old(promises)|)
        && promises == old(promises) + [Pending]
        && router.remembered == old(StoredSlots())
        && router.submissions == old(router.submissions) + [Request(verb, url, transform(data), options)]
    {
      if !browser {
        return Threw(NotInBrowser);
      }
      if processing {
        return Threw(Processing);
      }
      if HasRemember() {
        Store();
      }
      var payload := transform(data);
      r := Started(|promises|);
      promises := promises + [Pending];
      router.submissions := router.submissions + [Request(verb, url, payload, options)];
    }

    /** `onCancelToken`: the token is captured for `cancel()`. */
    method OnCancelToken(token: Token)
      modifies this`cancelToken
      ensures cancelToken == Some(token)
    {
      cancelToken := Some(token);
    }

    /** `onBefore`: clears both outcome flags, the errors and the progress. */
    method OnBefore()
      modifies this`wasSuccessful, this`wasFailed, this`errors, this`progress
      ensures Valid()
      ensures !wasSuccessful && !wasFailed && errors == [] && progress == None
    {
      wasSuccessful, wasFailed := false, false;
      errors := [];
      progress := None;
    }

    /** `onStart`: the form is processing. */
    method OnStart()
      modifies this`processing
      ensures processing
    {
      processing := true;
    }

    /** `onProgress`: mirrors the event, or null when it is absent. */
    method OnProgress(event: Option<Progress>)
      modifies this`progress
      ensures progress == event
    {
      progress := event;
    }

    /** `onSuccess`: success flags set, errors and progress cleared, and the
        submission's promise resolves with the page. */
    method OnSuccess(submission: nat, page: Page)
      requires submission < |promises|
      modifies this`processing, this`wasSuccessful, this`wasFailed, this`progress, this`errors, this`promises
      ensures Valid()
      ensures !processing && wasSuccessful && !wasFailed && progress == None && errors == []
      ensures promises == old(promises)[submission := Settle(old(promises[submission]), Resolved(page))]
    {
      processing := false;
      wasSuccessful := true;
      wasFailed := false;
      progress := None;
      errors := [];
      promises := promises[submission := Settle(promises[submission], Resolved(page))];
    }

    /** `onError`: the payload becomes the errors, failure flags set, and the
        promise rejects with a validation error carrying the payload. */
    method OnError(submission: nat, payload: ErrorBag)
      requires submission < |promises|
      modifies this`processing, this`wasSuccessful, this`wasFailed, this`progress, this`errors, this`promises
      ensures Valid()
      ensures errors == payload && !processing && !wasSuccessful && wasFailed && progress == None
      ensures promises == old(promises)[submission := Settle(old(promises[submission]), Rejected(Validation(payload)))]
    {
      errors := payload;
      processing := false;
      wasSuccessful := false;
      wasFailed := true;
      progress := None;
      promises := promises[submission := Settle(promises[submission], Rejected(Validation(payload)))];
    }

    /** `onCancel`: no longer processing; the promise rejects with a
        cancellation error. */
    method OnCancel(submission: nat)
      requires submission < |promises|
      modifies this`processing, this`promises
      ensures !processing
      ensures promises == old(promises)[submission := Settle(old(promises[submission]), Rejected(Canceled))]
    {
      processing := false;
      promises := promises[submission := Settle(promises[submission], Rejected(Canceled))];
    }

    /** `onFinish`: not processing, no progress, no cancel token. */
    method OnFinish()
      modifies this`processing, this`progress, this`cancelToken
      ensures !processing && progress == None && cancelToken == None
    {
      processing := false;
      progress := None;
      cancelToken := None;
    }

    /** `cancel()`: cancels the captured token, if there is one. */
    method Cancel()
      modifies router`cancelled
      ensures cancelToken.None? ==> router.cancelled == old(router.cancelled)
      ensures cancelToken.Some? ==> router.cancelled == old(router.cancelled) + [cancelToken.value]
    {
      if cancelToken.Some? {
        router.cancelled := router.cancelled + [cancelToken.value];
      }
    }

    /** `reset(...fields)`: with no fields, data becomes the defaults; with
        fields, each named field is overwritten from the defaults in turn. */
    method Reset(fields: seq<string>)
      modifies this`data
      ensures fields == [] ==> data == defaults && !Dirty()
      ensures fields != [] ==> data == ResetFields(old(data), defaults, fields)
    {
      if fields == [] {
        data := defaults;
        return;
      }
      var i := 0;
      while i < |fields|
        invariant 0 <= i <= |fields|
        invariant ResetFields(data, defaults, fields[i..]) == ResetFields(old(data), defaults, fields)
      {
        assert fields[i..][1..] == fields[i + 1..];
        data := data[fields[i] := DefaultOf(defaults, fields[i])];
        i := i + 1;
      }
    }

    /** `transform(callback)`. */
    method SetTransform(callback: Data -> Data)
      modifies this`transform
      ensures transform == callback
    {
      transform := callback;
    }

    /** `remember(callback)`: shapes the data written by `store()`. */
    method SetRemember(callback: Data -> Data)
      requires HasRemember()
      modifies this`remember
      ensures remember == callback
    {
      remember := callback;
    }

    /** The `data` setter. */
    method SetData(value: Data)
      modifies this`data
      ensures data == value
      ensures Dirty() <==> value != defaults
    {
      data := value;
    }

    /** The `default` setter of `useForm`. */
    method SetDefaults(value: Data)
      modifies this`defaults
      ensures defaults == value
    {
      defaults := value;
    }

    /** The `errors` setter. */
    method SetErrors(value: ErrorBag)
      modifies this`errors
      ensures errors == value
    {
      errors := value;
    }

    /** Component teardown: with a remember key the slot is written once more. */
    method Dispose()
      modifies router`remembered
      ensures router.remembered == old(StoredSlots())
    {
      if HasRemember() {
        Store();
      }
    }
  }

  /** One router callback of a submission, as the environment fires it. */
  datatype Callback =
    | CancelTokenCb(token: Token)
    | BeforeCb
    | StartCb
    | ProgressCb(event: Option<Progress>)
    | SuccessCb(submission: nat, page: Page)
    | ErrorCb(submission: nat, payload: ErrorBag)
    | CancelCb(submission: nat)
    | FinishCb

  /** The callback belongs to one of the first `n` submissions. */
  predicate Addresses(c: Callback, n: nat) {
    match c
    case SuccessCb(s, _) => s < n
    case ErrorCb(s, _) => s < n
    case CancelCb(s) => s < n
    case _ => true
  }

  /** A settled promise of `before` is unchanged in `after`. */
  predicate KeepsSettled(before: seq<Outcome>, after: seq<Outcome>) {
    |after| == |before| && forall i :: 0 <= i < |before| && !before[i].Pending? ==> after[i] == before[i]
  }

  /** Fires one callback. */
  method Deliver(form: Form, c: Callback)
    requires form.Valid() && Addresses(c, |form.promises|)
    modifies form
    ensures form.Valid()
    ensures KeepsSettled(old(form.promises), form.promises)
    ensures form.data == old(form.data) && form.defaults == old(form.defaults)
  {
    match c
    case CancelTokenCb(token) => form.OnCancelToken(token);
    case BeforeCb => form.OnBefore();
    case StartCb => form.OnStart();
    case ProgressCb(event) => form.OnProgress(event);
    case SuccessCb(sub, page) => form.OnSuccess(sub, page);
    case ErrorCb(sub, payload) => form.OnError(sub, payload);
    case CancelCb(sub) => form.OnCancel(sub);
    case FinishCb => form.OnFinish();
  }

  /** Whatever callbacks the router fires, in whatever order: the form never
      reports success and failure at once, a settled promise never changes,
      and the data is left alone. */
  method DeliverAll(form: Form, cbs: seq<Callback>)
    requires form.Valid()
    requires forall i :: 0 <= i < |cbs| ==> Addresses(cbs[i], |form.promises|)
    modifies form
    ensures form.Valid()
    ensures KeepsSettled(old(form.promises), form.promises)
    ensures form.data == old(form.data)
  {
    var i := 0;
    while i < |cbs|
      invariant 0 <= i <= |cbs|
      invariant form.Valid()
      invariant KeepsSettled(old(form.promises), form.promises)
      invariant form.data == old(form.data)
    {
      Deliver(form, cbs[i]);
      i := i + 1;
    }
  }

  /** A submission the router accepts, with its callbacks in the order the
      router fires them: not processing afterwards, no errors, and the
      promise resolved with the delivered page. */
  method SuccessfulSubmission(form: Form, verb: Method, url: string, token: Token, event: Progress, page: Page)
    returns (r: SubmitResult)
    requires form.browser && !form.processing
    modifies form, form.router
    ensures r == Started(|old(form.promises)|)
    ensures form.Valid()
    ensures !form.processing && form.wasSuccessful && !form.wasFailed
    ensures form.errors == [] && form.progress == None && form.cancelToken == None
    ensures form.AllErrors(NoFilter) == []
    ensures form.promises == old(form.promises) + [Resolved(page)]
    ensures form.data == old(form.data)
  {
    r := form.Submit(verb, url, FormOptions(None, map[]));
    form.OnBefore();
    form.OnCancelToken(token);
    form.OnStart();
    form.OnProgress(Some(event));
    form.OnSuccess(r.submission, page);
    form.OnFinish();
  }

  /** A submission the router rejects with field errors: failed, not
      successful, and `allErrors()` is exactly the flattened payload. */
  method FailedSubmission(form: Form, verb: Method, url: string, payload: ErrorBag) returns (r: SubmitResult)
    requires form.browser && !form.processing
    modifies form, form.router
    ensures r == Started(|old(form.promises)|)
    ensures form.Valid()
    ensures !form.processing && !form.wasSuccessful && form.wasFailed
    ensures form.errors == payload && form.AllErrors(NoFilter) == Flatten(payload)
    ensures form.promises == old(form.promises) + [Rejected(Validation(payload))]
  {
    r := form.Submit(verb, url, FormOptions(None, map[]));
    form.OnBefore();
    form.OnStart();
    form.OnError(r.submission, payload);
    form.OnFinish();
    WhereAll(form.errors, NoFilter);
  }

  /** A second submission while the first is processing throws and leaves
      the router and the first promise alone. */
  method OverlappingSubmission(form: Form, verb: Method, url: string) returns (first: SubmitResult, second: SubmitResult)
    requires form.browser && !form.processing
    modifies form, form.router
    ensures first == Started(|old(form.promises)|)
    ensures second == Threw(Processing)
    ensures form.promises == old(form.promises) + [Pending]
    ensures |form.router.submissions| == |old(form.router.submissions)| + 1
  {
    first := form.Submit(verb, url, FormOptions(None, map[]));
    form.OnBefore();
    form.OnStart();
    second := form.Submit(verb, url, FormOptions(None, map[]));
  }
}
