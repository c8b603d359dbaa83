/**
 * The Signatures orchestrator of signatures_engine.py: it merges the selected
 * codes into one code vector, decides which calculators to run, and builds
 * the payload with the starter security rule and action plans.
 *
 * The calculator module is not modelled: its five adapters appear as the
 * values they returned for this call.
 */
module SignaturesEngine {
  import opened Wrappers
  import opened Text

  // ---------------------------------------------------------------
  // code vectors: an insertion-ordered dict from code to int
  // ---------------------------------------------------------------

  type Codes = seq<(string, int)>

  predicate DistinctKeys(d: Codes) {
    forall i, j :: 0 <= i < j < |d| ==> d[i].0 != d[j].0
  }

  /** The value stored under k, if any. */
  function Find(d: Codes, k: string): Option<int> {
    if d == [] then None
    else if d[0].0 == k then Some(d[0].1)
    else Find(d[1..], k)
  }

  /** The value stored under k, or 0 when k is absent. */
  function CodeOr0(d: Codes, k: string): int {
    Find(d, k).GetOr(0)
  }

  /** d[k] = v: a present key keeps its place, a new key goes last. */
  function Put(d: Codes, k: string, v: int): Codes {
    if d == [] then [(k, v)]
    else if d[0].0 == k then [(k, v)] + d[1..]
    else [d[0]] + Put(d[1..], k, v)
  }

  lemma {:induction false} PutFind(d: Codes, k: string, v: int)
    ensures forall k2 :: Find(Put(d, k, v), k2) == if k2 == k then Some(v) else Find(d, k2)
  {
    if d != [] && d[0].0 != k {
      PutFind(d[1..], k, v);
    }
  }

  /** Put overwrites the entry of a present key in place and appends a new key. */
  lemma {:induction false} PutShape(d: Codes, k: string, v: int)
    ensures IndexOf(d, k) >= 0 ==> Put(d, k, v) == d[IndexOf(d, k) := (k, v)]
    ensures IndexOf(d, k) < 0 ==> Put(d, k, v) == d + [(k, v)]
  {
    if d != [] && d[0].0 != k {
      PutShape(d[1..], k, v);
      assert d == [d[0]] + d[1..];
    }
  }

  lemma PutDistinct(d: Codes, k: string, v: int)
    requires DistinctKeys(d)
    ensures DistinctKeys(Put(d, k, v))
  {
    PutShape(d, k, v);
  }

  /** The value of the last pair with key k. */
  function LastValue(ps: Codes, k: string): Option<int> {
    if ps == [] then None
    else if ps[|ps| - 1].0 == k then Some(ps[|ps| - 1].1)
    else LastValue(ps[..|ps| - 1], k)
  }

  /** Assigns the pairs of ps in order, so later pairs override earlier ones. */
  function PutAll(d: Codes, ps: Codes): Codes {
    if ps == [] then d
    else Put(PutAll(d, ps[..|ps| - 1]), ps[|ps| - 1].0, ps[|ps| - 1].1)
  }

  /** Later pairs override earlier ones and the starting dict; keys stay distinct. */
  lemma {:induction false} PutAllSpec(d: Codes, ps: Codes)
    ensures forall k :: Find(PutAll(d, ps), k) == if LastValue(ps, k).Some? then LastValue(ps, k) else Find(d, k)
    ensures DistinctKeys(d) ==> DistinctKeys(PutAll(d, ps))
  {
    if ps != [] {
      PutAllSpec(d, ps[..|ps| - 1]);
      PutFind(PutAll(d, ps[..|ps| - 1]), ps[|ps| - 1].0, ps[|ps| - 1].1);
      if DistinctKeys(d) {
        PutDistinct(PutAll(d, ps[..|ps| - 1]), ps[|ps| - 1].0, ps[|ps| - 1].1);
      }
    }
  }

  // ---------------------------------------------------------------
  // normalize_codes
  // ---------------------------------------------------------------

  datatype SignaturesInput = SignaturesInput(
    question: string,
    behavioralCore: string,
    conditionModifiers: Codes,
    engagementDrivers: Codes)

  /** The ValueError normalize_codes raises. */
  datatype CodeError = DriverOutOfRange(driver: string, value: int)

  /** A condition is present (1) only when its value is exactly 1. */
  function ConditionFlags(conds: Codes): (r: Codes)
    ensures |r| == |conds|
    ensures forall i :: 0 <= i < |conds| ==> r[i] == (conds[i].0, if conds[i].1 == 1 then 1 else 0)
  {
    seq(|conds|, i requires 0 <= i < |conds| => (conds[i].0, if conds[i].1 == 1 then 1 else 0))
  }

  predicate ValidDriverValue(v: int) { v == -1 || v == 0 || v == 1 }

  /** The first driver whose value is outside -1, 0, 1. */
  function FirstBadDriver(ds: Codes): Option<(string, int)> {
    if ds == [] then None
    else
      var earlier := FirstBadDriver(ds[..|ds| - 1]);
      if earlier.Some? then earlier
      else if !ValidDriverValue(ds[|ds| - 1].1) then Some(ds[|ds| - 1])
      else None
  }

  function NormalizedCodes(si: SignaturesInput): Result<Codes, CodeError> {
    match FirstBadDriver(si.engagementDrivers)
    case Some(bad) => Err(DriverOutOfRange(bad.0, bad.1))
    case None => Ok(PutAll(PutAll([(si.behavioralCore, 1)], ConditionFlags(si.conditionModifiers)), si.engagementDrivers))
  }

  method NormalizeCodes(si: SignaturesInput) returns (r: Result<Codes, CodeError>)
    ensures r == NormalizedCodes(si)
  {
    var codes: Codes := [];
    codes := Put(codes, si.behavioralCore, 1);
    var conds := si.conditionModifiers;
    for i := 0 to |conds|
      invariant codes == PutAll([(si.behavioralCore, 1)], ConditionFlags(conds[..i]))
    {
      assert ConditionFlags(conds[..i + 1])[..i] == ConditionFlags(conds[..i]);
      codes := Put(codes, conds[i].0, if conds[i].1 == 1 then 1 else 0);
    }
    assert conds[..|conds|] == conds;
    ghost var base := codes;
    var drivers := si.engagementDrivers;
    for i := 0 to |drivers|
      invariant codes == PutAll(base, drivers[..i])
      invariant FirstBadDriver(drivers[..i]) == None
    {
      assert drivers[..i + 1][..i] == drivers[..i];
      var (d, v) := drivers[i];
      if !ValidDriverValue(v) {
        assert drivers[..i + 1][i] == drivers[i];
        assert FirstBadDriver(drivers[..i + 1]) == Some(drivers[i]);
        FirstBadDriverOfPrefix(drivers, i + 1);
        return Err(DriverOutOfRange(d, v));
      }
      codes := Put(codes, d, v);
    }
    assert drivers[..|drivers|] == drivers;
    return Ok(codes);
  }

  /** A bad driver found in a prefix is the first bad driver of the whole list. */
  lemma {:induction false} FirstBadDriverOfPrefix(ds: Codes, n: nat)
    requires n <= |ds| && FirstBadDriver(ds[..n]).Some?
    ensures FirstBadDriver(ds) == FirstBadDriver(ds[..n])
  {
    if n < |ds| {
      assert ds[..|ds| - 1][..n] == ds[..n];
      FirstBadDriverOfPrefix(ds[..|ds| - 1], n);
    } else {
      assert ds[..n] == ds;
    }
  }

  lemma {:induction false} FirstBadDriverSpec(ds: Codes)
    ensures FirstBadDriver(ds).None? <==> forall i :: 0 <= i < |ds| ==> ValidDriverValue(ds[i].1)
    ensures FirstBadDriver(ds).Some? ==> exists i :: FirstBadAt(ds, i) && FirstBadDriver(ds) == Some(ds[i])
  {
    if ds != [] {
      var init := ds[..|ds| - 1];
      FirstBadDriverSpec(init);
      assert forall i :: 0 <= i < |init| ==> init[i] == ds[i];
      if FirstBadDriver(init).Some? {
        var i :| FirstBadAt(init, i) && FirstBadDriver(init) == Some(init[i]);
        assert FirstBadAt(ds, i);
      } else if !ValidDriverValue(ds[|ds| - 1].1) {
        assert FirstBadAt(ds, |ds| - 1);
      }
    }
  }

  /** Position i holds the first driver value outside -1..1. */
  predicate FirstBadAt(ds: Codes, i: int) {
    0 <= i < |ds| && !ValidDriverValue(ds[i].1) && forall j :: 0 <= j < i ==> ValidDriverValue(ds[j].1)
  }

  /** normalize_codes fails exactly when some driver value lies outside -1..1, naming the first one. */
  lemma NormalizeFailsIff(si: SignaturesInput)
    ensures NormalizedCodes(si).Err? <==> exists i :: 0 <= i < |si.engagementDrivers| && !ValidDriverValue(si.engagementDrivers[i].1)
    ensures NormalizedCodes(si).Err? ==> exists i :: (FirstBadAt(si.engagementDrivers, i) &&
      NormalizedCodes(si).error == DriverOutOfRange(si.engagementDrivers[i].0, si.engagementDrivers[i].1))
  {
    FirstBadDriverSpec(si.engagementDrivers);
  }

  /**
   * The vector sends the behavioural core to 1, each condition to 1 when its
   * value is 1 and to 0 otherwise, and each driver to its value; drivers
   * override conditions, which override the core, and no code appears twice.
   */
  lemma NormalizeLookup(si: SignaturesInput, k: string)
    requires NormalizedCodes(si).Ok?
    ensures var codes := NormalizedCodes(si).value;
      var drv := LastValue(si.engagementDrivers, k);
      var cond := LastValue(si.conditionModifiers, k);
      DistinctKeys(codes) &&
      Find(codes, k) ==
        if drv.Some? then drv
        else if cond.Some? then Some(if cond.value == 1 then 1 else 0)
        else if k == si.behavioralCore then Some(1)
        else None
  {
    var start: Codes := [(si.behavioralCore, 1)];
    var flags := ConditionFlags(si.conditionModifiers);
    assert start[1..] == [];
    assert Find(start, k) == if k == si.behavioralCore then Some(1) else None;
    PutAllSpec(start, flags);
    PutAllSpec(PutAll(start, flags), si.engagementDrivers);
    FlagsLastValue(si.conditionModifiers, k);
  }

  lemma {:induction false} FlagsLastValue(conds: Codes, k: string)
    ensures var c := LastValue(conds, k);
      LastValue(ConditionFlags(conds), k) == if c.Some? then Some(if c.value == 1 then 1 else 0) else None
  {
    if conds != [] {
      var init := conds[..|conds| - 1];
      FlagsLastValue(init, k);
      assert ConditionFlags(conds)[..|conds| - 1] == ConditionFlags(init);
    }
  }

  // ---------------------------------------------------------------
  // active conditions and drivers
  // ---------------------------------------------------------------

  const DRIVER_CODES: set<string> := {"PR", "RC", "SE", "GO", "ID", "HL", "DS", "TR", "FI", "HI", "AX"}

  /** The keys whose entries pass keep, in vector order. */
  function Select(d: Codes, keep: (string, int) -> bool): seq<string> {
    if d == [] then []
    else Select(d[..|d| - 1], keep) + (if keep(d[|d| - 1].0, d[|d| - 1].1) then [d[|d| - 1].0] else [])
  }

  /** The test an entry passes to be listed as an active condition. */
  function ConditionTest(core: string): (string, int) -> bool {
    (k: string, v: int) => v == 1 && IsUpperCase(k) && k !in DRIVER_CODES && k != core
  }

  /** The test an entry passes to be listed as an active driver. */
  function DriverTest(): (string, int) -> bool {
    (k: string, v: int) => k in DRIVER_CODES && v > 0
  }

  function ActiveConditions(codes: Codes, core: string): seq<string> {
    Select(codes, ConditionTest(core))
  }

  function ActiveDrivers(codes: Codes): seq<string> {
    Select(codes, DriverTest())
  }

  /** The position of the first pair with key k, or -1. */
  function IndexOf(d: Codes, k: string): (r: int)
    ensures -1 <= r < |d|
    ensures r >= 0 ==> d[r].0 == k
    ensures r < 0 <==> forall i :: 0 <= i < |d| ==> d[i].0 != k
  {
    if d == [] then -1
    else if d[0].0 == k then 0
    else var j := IndexOf(d[1..], k); if j < 0 then -1 else j + 1
  }

  lemma {:induction false} SnocLookups(d: Codes, p: (string, int), k: string)
    ensures Find(d + [p], k) == if Find(d, k).Some? then Find(d, k) else if p.0 == k then Some(p.1) else None
    ensures IndexOf(d + [p], k) == if IndexOf(d, k) >= 0 then IndexOf(d, k) else if p.0 == k then |d| else -1
    ensures Find(d, k).Some? <==> IndexOf(d, k) >= 0
  {
    if d != [] {
      assert (d + [p])[1..] == d[1..] + [p];
      SnocLookups(d[1..], p, k);
    }
  }

  lemma {:induction false} AbsentKey(d: Codes, k: string)
    requires forall i :: 0 <= i < |d| ==> d[i].0 != k
    ensures Find(d, k) == None && IndexOf(d, k) == -1
  {
    if d != [] {
      AbsentKey(d[1..], k);
    }
  }

  /** Dropping the last entry keeps the keys distinct, and its key occurs nowhere before it. */
  lemma DistinctInit(d: Codes)
    requires d != [] && DistinctKeys(d)
    ensures DistinctKeys(d[..|d| - 1])
    ensures Find(d[..|d| - 1], d[|d| - 1].0) == None && IndexOf(d[..|d| - 1], d[|d| - 1].0) == -1
  {
    var init := d[..|d| - 1];
    assert forall i :: 0 <= i < |init| ==> init[i] == d[i];
    AbsentKey(init, d[|d| - 1].0);
  }

  /** A selection holds exactly the keys whose entry passes the test. */
  lemma {:induction false} SelectMembers(d: Codes, keep: (string, int) -> bool, k: string)
    requires DistinctKeys(d)
    ensures k in Select(d, keep) <==> Find(d, k).Some? && keep(k, Find(d, k).value)
  {
    if d != [] {
      var init := d[..|d| - 1];
      var p := d[|d| - 1];
      assert d == init + [p];
      DistinctInit(d);
      SelectMembers(init, keep, k);
      SnocLookups(init, p, k);
    }
  }

  /** Every selected key is present in the dict. */
  lemma {:induction false} SelectPresent(d: Codes, keep: (string, int) -> bool)
    ensures forall k :: k in Select(d, keep) ==> IndexOf(d, k) >= 0
  {
    if d != [] {
      var init := d[..|d| - 1];
      var p := d[|d| - 1];
      assert d == init + [p];
      SelectPresent(init, keep);
      forall k | k in Select(d, keep) ensures IndexOf(d, k) >= 0 {
        SnocLookups(init, p, k);
      }
    }
  }

  /** The keys of r appear in d, in the same order. */
  predicate InDictOrder(d: Codes, r: seq<string>) {
    forall i, j :: 0 <= i < j < |r| ==> 0 <= IndexOf(d, r[i]) < IndexOf(d, r[j])
  }

  /** A selection lists its keys in the order of the dict. */
  lemma {:induction false} SelectOrdered(d: Codes, keep: (string, int) -> bool)
    requires DistinctKeys(d)
    ensures InDictOrder(d, Select(d, keep))
  {
    if d != [] {
      var init := d[..|d| - 1];
      var p := d[|d| - 1];
      assert d == init + [p];
      DistinctInit(d);
      SelectOrdered(init, keep);
      SelectPresent(init, keep);
      var r0 := Select(init, keep);
      var r := Select(d, keep);
      forall i | 0 <= i < |r0| ensures IndexOf(d, r0[i]) == IndexOf(init, r0[i]) >= 0 {
        SnocLookups(init, p, r0[i]);
      }
      SnocLookups(init, p, p.0);
      forall i, j | 0 <= i < j < |r| ensures 0 <= IndexOf(d, r[i]) < IndexOf(d, r[j]) {
        assert r[i] == r0[i];
        if j < |r0| {
          assert r[j] == r0[j];
        } else {
          assert r[j] == p.0;
        }
      }
    }
  }

  /** active_conditions: present, all upper case, not a driver and not the behavioural core. */
  lemma ActiveConditionsSpec(codes: Codes, core: string)
    requires DistinctKeys(codes)
    ensures forall k :: k in ActiveConditions(codes, core) <==>
      Find(codes, k) == Some(1) && IsUpperCase(k) && k !in DRIVER_CODES && k != core
    ensures InDictOrder(codes, ActiveConditions(codes, core))
  {
    forall k ensures k in ActiveConditions(codes, core) <==>
      Find(codes, k) == Some(1) && IsUpperCase(k) && k !in DRIVER_CODES && k != core
    {
      SelectMembers(codes, ConditionTest(core), k);
    }
    SelectOrdered(codes, ConditionTest(core));
  }

  /** active_drivers: the driver codes with a positive value; 0 and -1 never appear. */
  lemma ActiveDriversSpec(codes: Codes)
    requires DistinctKeys(codes)
    ensures forall k :: k in ActiveDrivers(codes) <==> k in DRIVER_CODES && Find(codes, k).Some? && Find(codes, k).value > 0
    ensures InDictOrder(codes, ActiveDrivers(codes))
  {
    forall k ensures k in ActiveDrivers(codes) <==> k in DRIVER_CODES && Find(codes, k).Some? && Find(codes, k).value > 0 {
      SelectMembers(codes, DriverTest(), k);
    }
    SelectOrdered(codes, DriverTest());
  }

  // ---------------------------------------------------------------
  // hook routing
  // ---------------------------------------------------------------

  /** Clinical inputs, each value as str() renders it. */
  type Clinical = map<string, string>

  /** The answer stored under k (default when missing), stripped and lower-cased. */
  function ClinicalAnswer(clinical: Clinical, k: string, default: string): string {
    Lower(Strip(if k in clinical then clinical[k] else default))
  }

  const LIFESTYLE_BEHAVIORS: set<string> := {"PA", "BP", "NUT", "SL", "TOB", "WT", "GLU", "CHOL"}
  const PREVENT_CONDITIONS: seq<string> := ["HT", "CD", "CKD", "CKM"]
  const YES_ANSWERS: set<string> := {"yes", "y", "true", "1"}
  const REHAB_CONDITIONS: seq<string> := ["CD", "HF"]
  const REHAB_HISTORY: seq<string> := ["AMI", "PCI", "CABG", "cardiac_arrest", "heart_failure"]

  predicate ShouldRunMyLifeCheck(behavior: string, codes: Codes) {
    behavior in LIFESTYLE_BEHAVIORS || CodeOr0(codes, "CKM") == 1
  }

  /** Some code of ks has the value 1; a missing code counts as 0. */
  predicate AnyCodeSet(codes: Codes, ks: seq<string>) {
    exists i :: 0 <= i < |ks| && CodeOr0(codes, ks[i]) == 1
  }

  predicate ShouldRunPrevent(behavior: string, codes: Codes) {
    AnyCodeSet(codes, PREVENT_CONDITIONS) || behavior in {"PA", "BP"}
  }

  predicate ShouldRunChads2Vasc(codes: Codes, clinical: Clinical) {
    CodeOr0(codes, "AF") == 1 || ClinicalAnswer(clinical, "atrial_fibrillation", "") in YES_ANSWERS
  }

  /** The clinical answer to k is yes; a missing answer counts as No. */
  predicate AnsweredYes(clinical: Clinical, k: string) {
    ClinicalAnswer(clinical, k, "No") == "yes"
  }

  /** The answer to some key of ks is yes. */
  predicate AnyAnsweredYes(clinical: Clinical, ks: seq<string>) {
    exists i :: 0 <= i < |ks| && AnsweredYes(clinical, ks[i])
  }

  predicate ShouldRunCardiacRehab(codes: Codes, clinical: Clinical) {
    AnyCodeSet(codes, REHAB_CONDITIONS) || AnyAnsweredYes(clinical, REHAB_HISTORY)
  }

  predicate ShouldRunHealthyDayAtHome(codes: Codes, clinical: Clinical) {
    true
  }

  /**
   * The value the code vector holds for k, read off the request itself: the
   * last driver value for k, else the last condition flag for k, else 1 when
   * k is the behavioural core, else 0 (what `codes.get(k, 0)` finds).
   */
  function SelectedValue(si: SignaturesInput, k: string): int {
    var drv := LastValue(si.engagementDrivers, k);
    var cond := LastValue(si.conditionModifiers, k);
    if drv.Some? then drv.value
    else if cond.Some? then (if cond.value == 1 then 1 else 0)
    else if k == si.behavioralCore then 1
    else 0
  }

  lemma VectorHoldsSelection(si: SignaturesInput)
    requires NormalizedCodes(si).Ok?
    ensures forall k :: CodeOr0(NormalizedCodes(si).value, k) == SelectedValue(si, k)
  {
    forall k ensures CodeOr0(NormalizedCodes(si).value, k) == SelectedValue(si, k) {
      NormalizeLookup(si, k);
    }
  }

  /** Some code of ks is selected with the value 1. */
  predicate AnySelected(si: SignaturesInput, ks: seq<string>) {
    exists i :: 0 <= i < |ks| && SelectedValue(si, ks[i]) == 1
  }

  /**
   * The four conditional routing rules, decided on the request rather than on
   * the merged vector: a driver overrides a condition of the same code, a
   * condition given any value other than 1 counts as absent, and a behavioural
   * core that is itself a routing code (CKM, AF, ...) switches its rule on.
   */
  lemma RoutingOfRequest(si: SignaturesInput, clinical: Clinical)
    requires NormalizedCodes(si).Ok?
    ensures var codes, b := NormalizedCodes(si).value, si.behavioralCore;
      (ShouldRunMyLifeCheck(b, codes) <==> b in LIFESTYLE_BEHAVIORS || SelectedValue(si, "CKM") == 1) &&
      (ShouldRunPrevent(b, codes) <==> AnySelected(si, PREVENT_CONDITIONS) || b in {"PA", "BP"}) &&
      (ShouldRunChads2Vasc(codes, clinical) <==>
        SelectedValue(si, "AF") == 1 || ClinicalAnswer(clinical, "atrial_fibrillation", "") in YES_ANSWERS) &&
      (ShouldRunCardiacRehab(codes, clinical) <==>
        AnySelected(si, REHAB_CONDITIONS) || AnyAnsweredYes(clinical, REHAB_HISTORY))
  {
    VectorHoldsSelection(si);
  }

  /** The two code vectors agree on every code of ks (a missing code reads as 0). */
  predicate SameCodesOn(c1: Codes, c2: Codes, ks: seq<string>) {
    forall i :: 0 <= i < |ks| ==> CodeOr0(c1, ks[i]) == CodeOr0(c2, ks[i])
  }

  /** The two clinical maps hold the same answers (or none) under every key of ks. */
  predicate SameAnswersOn(a: Clinical, b: Clinical, ks: seq<string>) {
    forall i :: 0 <= i < |ks| ==> (ks[i] in a <==> ks[i] in b) && (ks[i] in a ==> a[ks[i]] == b[ks[i]])
  }

  /**
   * Each routing rule reads only its own codes and answers: inputs that agree
   * on those are routed alike, and the healthy-day rule reads nothing.
   */
  lemma RoutingReadsOnlyItsInputs(behavior: string, c1: Codes, c2: Codes, a: Clinical, b: Clinical)
    ensures CodeOr0(c1, "CKM") == CodeOr0(c2, "CKM") ==>
      (ShouldRunMyLifeCheck(behavior, c1) <==> ShouldRunMyLifeCheck(behavior, c2))
    ensures SameCodesOn(c1, c2, PREVENT_CONDITIONS) ==>
      (ShouldRunPrevent(behavior, c1) <==> ShouldRunPrevent(behavior, c2))
    ensures CodeOr0(c1, "AF") == CodeOr0(c2, "AF") && SameAnswersOn(a, b, ["atrial_fibrillation"]) ==>
      (ShouldRunChads2Vasc(c1, a) <==> ShouldRunChads2Vasc(c2, b))
    ensures SameCodesOn(c1, c2, REHAB_CONDITIONS) && SameAnswersOn(a, b, REHAB_HISTORY) ==>
      (ShouldRunCardiacRehab(c1, a) <==> ShouldRunCardiacRehab(c2, b))
    ensures ShouldRunHealthyDayAtHome(c1, a) && ShouldRunHealthyDayAtHome(c2, b)
  {
    if CodeOr0(c1, "AF") == CodeOr0(c2, "AF") && SameAnswersOn(a, b, ["atrial_fibrillation"]) {
      assert ["atrial_fibrillation"][0] == "atrial_fibrillation";
    }
    if SameAnswersOn(a, b, REHAB_HISTORY) {
      assert forall i :: 0 <= i < |REHAB_HISTORY| ==> AnsweredYes(a, REHAB_HISTORY[i]) == AnsweredYes(b, REHAB_HISTORY[i]);
    }
  }

  /**
   * The rules overlap: an exercise or blood-pressure core and CKM each route
   * both Life's Essential 8 and PREVENT, and coronary disease routes both
   * PREVENT and cardiac rehab.
   */
  lemma RoutingOverlaps(behavior: string, codes: Codes, clinical: Clinical)
    ensures behavior in {"PA", "BP"} ==> ShouldRunMyLifeCheck(behavior, codes) && ShouldRunPrevent(behavior, codes)
    ensures CodeOr0(codes, "CKM") == 1 ==> ShouldRunMyLifeCheck(behavior, codes) && ShouldRunPrevent(behavior, codes)
    ensures CodeOr0(codes, "CD") == 1 ==> ShouldRunPrevent(behavior, codes) && ShouldRunCardiacRehab(codes, clinical)
  {
    assert PREVENT_CONDITIONS[1] == "CD" && PREVENT_CONDITIONS[3] == "CKM";
    assert REHAB_CONDITIONS[0] == "CD";
  }

  /**
   * A missing clinical answer never counts as yes, so without the answers
   * the AF and CD/HF codes alone decide CHA2DS2-VASc and cardiac rehab.
   */
  lemma MissingAnswersAreNo(codes: Codes, clinical: Clinical)
    ensures forall k :: k !in clinical ==> !AnsweredYes(clinical, k)
    ensures "atrial_fibrillation" !in clinical ==>
      (ShouldRunChads2Vasc(codes, clinical) <==> CodeOr0(codes, "AF") == 1)
    ensures (forall i :: 0 <= i < |REHAB_HISTORY| ==> REHAB_HISTORY[i] !in clinical) ==>
      (ShouldRunCardiacRehab(codes, clinical) <==> CodeOr0(codes, "CD") == 1 || CodeOr0(codes, "HF") == 1)
  {
    assert !IsSpace('N') && !IsSpace('o');
    assert Strip("") == "";
    assert Strip("No") == "No" by {
      StripOfStripped("No");
    }
    assert Lower("No") == "no";
    assert forall k :: k !in clinical ==> ClinicalAnswer(clinical, k, "No") == "no";
    assert REHAB_CONDITIONS[0] == "CD" && REHAB_CONDITIONS[1] == "HF";
    assert AnyCodeSet(codes, REHAB_CONDITIONS) <==> CodeOr0(codes, "CD") == 1 || CodeOr0(codes, "HF") == 1;
  }

  // ---------------------------------------------------------------
  // build_payload
  // ---------------------------------------------------------------

  /** A calculator result dictionary. */
  type Dict = map<string, string>

  /** What each run_* adapter returned for the clinical data of this call. */
  datatype Calculators = Calculators(
    mylifecheck: Option<Dict>,
    prevent: Option<Dict>,
    chads2vasc: Option<Dict>,
    cardiacRehab: Option<Dict>,
    healthyDayAtHome: Option<Dict>)

  datatype Measurements = Measurements(
    mylifecheck: Option<Dict>,
    prevent: Option<Dict>,
    chads2vasc: Option<Dict>,
    cardiacRehab: Option<Dict>,
    healthyDayAtHome: Option<Dict>)

  datatype Payload = Payload(
    question: string,
    codes: Codes,
    behavioralCore: string,
    activeConditions: seq<string>,
    activeDrivers: seq<string>,
    measurement: Measurements,
    securityRules: seq<string>,
    actionPlans: seq<string>,
    sources: seq<map<string, string>>)

  const CHEST_PAIN_STOP_RULE :=
    "SECURITY STOP RULE: If you experience chest pain during exercise, stop immediately and contact your healthcare professional."
  const REHAB_PLAN := "ACTION PLAN: Recommend a cardiac rehabilitation program if eligible."
  const ANTICOAGULATION_PLAN :=
    "ACTION PLAN: Discuss stroke prevention options (anticoagulation) based on CHA₂DS₂-VASc score with your clinician."

  /** Python's truth value of an optional dictionary. */
  predicate Truthy(d: Option<Dict>) { d.Some? && d.value != map[] }

  /** Each measurement is the adapter's result when its routing rule fires, and None otherwise. */
  function MeasurementsFor(behavior: string, codes: Codes, clinical: Clinical, adapters: Calculators): Measurements {
    Measurements(
      if ShouldRunMyLifeCheck(behavior, codes) then adapters.mylifecheck else None,
      if ShouldRunPrevent(behavior, codes) then adapters.prevent else None,
      if ShouldRunChads2Vasc(codes, clinical) then adapters.chads2vasc else None,
      if ShouldRunCardiacRehab(codes, clinical) then adapters.cardiacRehab else None,
      if ShouldRunHealthyDayAtHome(codes, clinical) then adapters.healthyDayAtHome else None)
  }

  predicate RehabIndicated(codes: Codes, clinical: Clinical) {
    CodeOr0(codes, "CD") == 1 || AnsweredYes(clinical, "heart_failure")
  }

  const NO_MEASUREMENTS := Measurements(None, None, None, None, None)

  /** The measurement block: each routed adapter fills its slot. */
  method RunMeasurements(behavior: string, codes: Codes, clinical: Clinical, adapters: Calculators)
    returns (m: Measurements)
    ensures m == MeasurementsFor(behavior, codes, clinical, adapters)
  {
    m := NO_MEASUREMENTS;
    if ShouldRunMyLifeCheck(behavior, codes) {
      m := m.(mylifecheck := adapters.mylifecheck);
    }
    if ShouldRunPrevent(behavior, codes) {
      m := m.(prevent := adapters.prevent);
    }
    if ShouldRunChads2Vasc(codes, clinical) {
      m := m.(chads2vasc := adapters.chads2vasc);
    }
    if ShouldRunCardiacRehab(codes, clinical) {
      m := m.(cardiacRehab := adapters.cardiacRehab);
    }
    if ShouldRunHealthyDayAtHome(codes, clinical) {
      m := m.(healthyDayAtHome := adapters.healthyDayAtHome);
    }
  }

  /** The starter security rule and action plans appended to a fresh payload. */
  method AddStarterContent(p: Payload, clinical: Clinical) returns (q: Payload)
    requires p.securityRules == [] && p.actionPlans == []
    ensures q == p.(
      securityRules := if p.behavioralCore == "PA" then [CHEST_PAIN_STOP_RULE] else [],
      actionPlans :=
        (if p.behavioralCore == "PA" && RehabIndicated(p.codes, clinical) then [REHAB_PLAN] else []) +
        (if CodeOr0(p.codes, "AF") == 1 && Truthy(p.measurement.chads2vasc) then [ANTICOAGULATION_PLAN] else []))
  {
    q := p;
    if q.behavioralCore == "PA" {
      q := q.(securityRules := q.securityRules + [CHEST_PAIN_STOP_RULE]);
      if CodeOr0(q.codes, "CD") == 1 || AnsweredYes(clinical, "heart_failure") {
        q := q.(actionPlans := q.actionPlans + [REHAB_PLAN]);
      }
    }
    if CodeOr0(q.codes, "AF") == 1 && Truthy(q.measurement.chads2vasc) {
      q := q.(actionPlans := q.actionPlans + [ANTICOAGULATION_PLAN]);
    }
  }

  method BuildPayload(sig: SignaturesInput, clinical: Clinical, adapters: Calculators) returns (r: Result<Payload, CodeError>)
    ensures NormalizedCodes(sig).Err? ==> r == Err(NormalizedCodes(sig).error)
    ensures NormalizedCodes(sig).Ok? ==> r.Ok? && PayloadFor(sig, clinical, adapters, NormalizedCodes(sig).value, r.value)
  {
    var normalized := NormalizeCodes(sig);
    if normalized.Err? {
      return Err(normalized.error);
    }
    var codes := normalized.value;
    var activeConditions := ActiveConditions(codes, sig.behavioralCore);
    var activeDrivers := ActiveDrivers(codes);
    var payload := Payload(sig.question, codes, sig.behavioralCore, activeConditions, activeDrivers,
                           NO_MEASUREMENTS, [], [], []);
    var measurement := RunMeasurements(sig.behavioralCore, codes, clinical, adapters);
    payload := payload.(measurement := measurement);
    payload := AddStarterContent(payload, clinical);
    return Ok(payload);
  }

  /** The payload build_payload returns for these inputs and this code vector. */
  predicate PayloadFor(sig: SignaturesInput, clinical: Clinical, adapters: Calculators, codes: Codes, p: Payload) {
    p.question == sig.question && p.codes == codes && p.behavioralCore == sig.behavioralCore &&
    p.activeConditions == ActiveConditions(codes, sig.behavioralCore) &&
    p.activeDrivers == ActiveDrivers(codes) &&
    p.measurement == MeasurementsFor(sig.behavioralCore, codes, clinical, adapters) &&
    p.securityRules == (if sig.behavioralCore == "PA" then [CHEST_PAIN_STOP_RULE] else []) &&
    p.actionPlans ==
      (if sig.behavioralCore == "PA" && RehabIndicated(codes, clinical) then [REHAB_PLAN] else []) +
      (if CodeOr0(codes, "AF") == 1 && Truthy(p.measurement.chads2vasc) then [ANTICOAGULATION_PLAN] else []) &&
    p.sources == []
  }

  /**
   * A measurement is filled only when its routing rule fires (the healthy-day
   * one always is); a PA core gets exactly the chest-pain stop rule and any
   * other core none; the rehab plan appears exactly for a PA core with CD = 1
   * or a heart-failure answer of yes, the anticoagulation plan exactly for
   * AF = 1 with a non-empty CHA2DS2-VASc result, and rehab comes first.
   */
  lemma PayloadRulesAndPlans(sig: SignaturesInput, clinical: Clinical, adapters: Calculators, p: Payload)
    requires NormalizedCodes(sig).Ok? && PayloadFor(sig, clinical, adapters, NormalizedCodes(sig).value, p)
    ensures var codes := NormalizedCodes(sig).value;
      (p.measurement.mylifecheck.Some? ==> ShouldRunMyLifeCheck(sig.behavioralCore, codes)) &&
      (p.measurement.prevent.Some? ==> ShouldRunPrevent(sig.behavioralCore, codes)) &&
      (p.measurement.chads2vasc.Some? ==> ShouldRunChads2Vasc(codes, clinical)) &&
      (p.measurement.cardiacRehab.Some? ==> ShouldRunCardiacRehab(codes, clinical)) &&
      p.measurement.healthyDayAtHome == adapters.healthyDayAtHome
    ensures (sig.behavioralCore == "PA" ==> p.securityRules == [CHEST_PAIN_STOP_RULE]) &&
      (sig.behavioralCore != "PA" ==> p.securityRules == [])
    ensures var codes := NormalizedCodes(sig).value;
      (REHAB_PLAN in p.actionPlans <==> sig.behavioralCore == "PA" && RehabIndicated(codes, clinical)) &&
      (ANTICOAGULATION_PLAN in p.actionPlans <==> CodeOr0(codes, "AF") == 1 && Truthy(adapters.chads2vasc)) &&
      (REHAB_PLAN in p.actionPlans && ANTICOAGULATION_PLAN in p.actionPlans ==>
         p.actionPlans == [REHAB_PLAN, ANTICOAGULATION_PLAN])
  {
    assert |REHAB_PLAN| < |ANTICOAGULATION_PLAN|;
  }
}
