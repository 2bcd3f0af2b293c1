/** The node settings store (src/Services/NodeSettingsStore.cs): the latest
    settings each node reported, one MQTT setting at a time, and the set
    messages that push changed settings back to a node. NodeSettings.cs is
    not part of this model: its fields and their types are the ones the store
    reads and writes, and a new NodeSettings(id) is taken to hold no values. */
module NodeSettings {
  import opened Base

  // ---------------------------------------------------------------------
  // Boolean payloads

  /** Drop leading and trailing whitespace and NUL characters, as
      bool.Parse does before its second comparison. */
  function TrimWhiteAndNull(s: string): (r: string)
    ensures |r| <= |s|
    ensures r != [] ==> !IsWhite(r[0]) && r[0] != '\0' && !IsWhite(r[|r| - 1]) && r[|r| - 1] != '\0'
  {
    if s != [] && (IsWhite(s[0]) || s[0] == '\0') then TrimWhiteAndNull(s[1..])
    else if s != [] && (IsWhite(s[|s| - 1]) || s[|s| - 1] == '\0') then TrimWhiteAndNull(s[..|s| - 1])
    else s
  }

  /** bool.Parse: "True" or "False" in any case, possibly surrounded by
      whitespace and NUL characters; anything else throws (None). */
  function BoolParse(s: string): Option<bool>
  {
    var t := Upper(TrimWhiteAndNull(s));
    if t == "TRUE" then Some(true) else if t == "FALSE" then Some(false) else None
  }

  predicate TrueToken(v: string) { v == "TRUE" || v == "1" || v == "ON" }
  predicate FalseToken(v: string) { v == "FALSE" || v == "0" || v == "OFF" }

  /** ParseBool: a null or empty payload is false; otherwise the trimmed,
      upper-cased payload is one of the true or false tokens, or goes to
      bool.Parse. None stands for the exception bool.Parse throws. */
  function ParseBool(value: Option<string>): (r: Option<bool>)
    ensures value.None? || value == Some("") ==> r == Some(false)
  {
    if value.None? || value.value == "" then Some(false)
    else
      var v := Upper(Trim(value.value));
      if TrueToken(v) then Some(true)
      else if FalseToken(v) then Some(false)
      else BoolParse(v)
  }

  /** The tokens decide, whatever the case and surrounding whitespace; the
      only other accepted payloads are those bool.Parse accepts; and a
      payload of whitespace only is an error, not false. */
  lemma ParseBoolRule(s: string)
    requires s != ""
    ensures TrueToken(Upper(Trim(s))) ==> ParseBool(Some(s)) == Some(true)
    ensures FalseToken(Upper(Trim(s))) ==> ParseBool(Some(s)) == Some(false)
    ensures ParseBool(Some(s)) == Some(true) <==>
              TrueToken(Upper(Trim(s))) || (!FalseToken(Upper(Trim(s))) && BoolParse(Upper(Trim(s))) == Some(true))
    ensures ParseBool(Some(s)) == Some(false) <==>
              FalseToken(Upper(Trim(s))) || (!TrueToken(Upper(Trim(s))) && BoolParse(Upper(Trim(s))) == Some(false))
    ensures (forall k :: 0 <= k < |s| ==> IsWhite(s[k])) ==> ParseBool(Some(s)).None?
  {
    if forall k :: 0 <= k < |s| ==> IsWhite(s[k]) {
      assert Trim(s) == [];
      assert Upper([]) == [];
    }
  }

  lemma TrimKeeps(s: string)
    requires s != [] && !IsWhite(s[0]) && !IsWhite(s[|s| - 1])
    ensures Trim(s) == s
  {
    assert TrimStart(s) == s;
  }

  lemma TrimWhiteAndNullKeeps(s: string)
    requires s != [] && !IsWhite(s[0]) && s[0] != '\0' && !IsWhite(s[|s| - 1]) && s[|s| - 1] != '\0'
    ensures TrimWhiteAndNull(s) == s
  {
  }

  lemma UpperKeeps(s: string)
    requires forall k :: 0 <= k < |s| ==> !('a' <= s[k] <= 'z')
    ensures Upper(s) == s
  {
  }

  /** ParseBool of a non-empty payload, in terms of its trimmed, upper-cased form. */
  lemma ParseBoolOf(x: string, v: string)
    requires x != [] && Upper(Trim(x)) == v
    ensures ParseBool(Some(x)) == if TrueToken(v) then Some(true) else if FalseToken(v) then Some(false) else BoolParse(v)
  {
  }

  lemma NulTrim(s: string)
    requires |s| == 4 && UpperChar(s[0]) == 'T' && UpperChar(s[1]) == 'R' && UpperChar(s[2]) == 'U' && UpperChar(s[3]) == 'E'
    ensures var u := Upper(Trim("\0" + s));
      |u| == 5 && u[0] == '\0' && u[1] == 'T' && u[2] == 'R' && u[3] == 'U' && u[4] == 'E'
  {
    var p := "\0" + s;
    assert p[0] == '\0' && p[4] == s[3];
    TrimKeeps(p);
  }

  lemma NulBoolParse(u: string)
    requires |u| == 5 && u[0] == '\0' && u[1] == 'T' && u[2] == 'R' && u[3] == 'U' && u[4] == 'E'
    ensures BoolParse(u) == Some(true)
  {
    TrimWhiteAndNullKeeps(u[1..]);
    assert TrimWhiteAndNull(u) == u[1..];
    UpperKeeps(u[1..]);
    assert u[1..] == "TRUE";
  }

  /** A leading NUL hides the token from the switch but not from bool.Parse:
      "\0true", in any case, is true. */
  lemma NulPrefixedTrue(s: string)
    requires |s| == 4 && UpperChar(s[0]) == 'T' && UpperChar(s[1]) == 'R' && UpperChar(s[2]) == 'U' && UpperChar(s[3]) == 'E'
    ensures ParseBool(Some("\0" + s)) == Some(true)
  {
    var x := "\0" + s;
    var u := Upper(Trim(x));
    assert !TrueToken(u) && !FalseToken(u) && BoolParse(u) == Some(true) by {
      NulTrim(s);
      NulBoolParse(u);
      assert u[0] != "FALSE"[0];
    }
    ParseBoolOf(x, u);
  }

  lemma YesTrim(s: string)
    requires |s| == 3 && UpperChar(s[0]) == 'Y' && UpperChar(s[1]) == 'E' && UpperChar(s[2]) == 'S'
    ensures var u := Upper(Trim(s)); |u| == 3 && u[0] == 'Y' && u[1] == 'E' && u[2] == 'S'
  {
    TrimKeeps(s);
  }

  lemma YesTokens(u: string)
    requires |u| == 3 && u[0] == 'Y' && u[1] == 'E' && u[2] == 'S'
    ensures !TrueToken(u) && !FalseToken(u) && BoolParse(u).None?
  {
    assert u[0] != "OFF"[0];
    TrimWhiteAndNullKeeps(u);
    UpperKeeps(u);
  }

  /** A payload outside the tokens that bool.Parse refuses is an error:
      "yes", in any case. */
  lemma YesIsError(s: string)
    requires |s| == 3 && UpperChar(s[0]) == 'Y' && UpperChar(s[1]) == 'E' && UpperChar(s[2]) == 'S'
    ensures ParseBool(Some(s)) == None
  {
    var u := Upper(Trim(s));
    assert !TrueToken(u) && !FalseToken(u) && BoolParse(u).None? by {
      YesTrim(s);
      YesTokens(u);
    }
    ParseBoolOf(s, u);
  }

  // ---------------------------------------------------------------------
  // Settings

  datatype Updating = Updating(autoUpdate: Option<bool>, preRelease: Option<bool>)
  datatype Scanning = Scanning(forgetAfterMs: Option<int>)
  datatype Counting = Counting(idPrefixes: Option<string>, startCountingDistance: Option<real>,
                               stopCountingDistance: Option<real>, includeDevicesAge: Option<int>)
  datatype Filtering = Filtering(includeIds: Option<string>, excludeIds: Option<string>, maxDistance: Option<real>,
                                 earlyReportDistance: Option<real>, skipReportAge: Option<int>)
  datatype Calibration = Calibration(absorption: Option<real>, rxAdjRssi: Option<int>, txRefRssi: Option<int>)

  /** A node's settings as a value. */
  datatype Settings = Settings(id: string, updating: Updating, scanning: Scanning, counting: Counting,
                               filtering: Filtering, calibration: Calibration)

  /** `new NodeSettings(id)`. */
  function Default(id: string): Settings
  {
    Settings(id, Updating(None, None), Scanning(None), Counting(None, None, None, None),
             Filtering(None, None, None, None, None), Calibration(None, None, None))
  }

  /** One setting's value, tagged with its type. */
  datatype Value = Flag(b: Option<bool>) | Whole(i: Option<int>) | Decimal(r: Option<real>) | Text(s: Option<string>)

  predicate IsNull(v: Value)
  {
    match v
    case Flag(b) => b.None?
    case Whole(i) => i.None?
    case Decimal(r) => r.None?
    case Text(s) => s.None?
  }

  /** The MQTT names of the settings, in the order Set sends them. */
  const Names: seq<string> := [
    "auto_update", "pre_release", "forget_after_ms", "count_ids", "count_min_dist", "count_max_dist",
    "include_devices_age", "include_ids", "exclude_ids", "max_distance", "early_report_distance",
    "skip_report_age", "absorption", "rx_adj_rssi", "tx_ref_rssi"]

  const Count: nat := 15

  /** The setting a name selects, if any. */
  function IndexOf(name: string): (r: Option<nat>)
    ensures r.Some? ==> r.value < Count && Names[r.value] == name
    ensures r.None? ==> name !in Names
  {
    if name == "auto_update" then Some(0) else if name == "pre_release" then Some(1)
    else if name == "forget_after_ms" then Some(2) else if name == "count_ids" then Some(3)
    else if name == "count_min_dist" then Some(4) else if name == "count_max_dist" then Some(5)
    else if name == "include_devices_age" then Some(6) else if name == "include_ids" then Some(7)
    else if name == "exclude_ids" then Some(8) else if name == "max_distance" then Some(9)
    else if name == "early_report_distance" then Some(10) else if name == "skip_report_age" then Some(11)
    else if name == "absorption" then Some(12) else if name == "rx_adj_rssi" then Some(13)
    else if name == "tx_ref_rssi" then Some(14) else None
  }

  /** The k-th setting. */
  function FieldOf(s: Settings, k: nat): Value
    requires k < Count
  {
    match k
    case 0 => Flag(s.updating.autoUpdate)
    case 1 => Flag(s.updating.preRelease)
    case 2 => Whole(s.scanning.forgetAfterMs)
    case 3 => Text(s.counting.idPrefixes)
    case 4 => Decimal(s.counting.startCountingDistance)
    case 5 => Decimal(s.counting.stopCountingDistance)
    case 6 => Whole(s.counting.includeDevicesAge)
    case 7 => Text(s.filtering.includeIds)
    case 8 => Text(s.filtering.excludeIds)
    case 9 => Decimal(s.filtering.maxDistance)
    case 10 => Decimal(s.filtering.earlyReportDistance)
    case 11 => Whole(s.filtering.skipReportAge)
    case 12 => Decimal(s.calibration.absorption)
    case 13 => Whole(s.calibration.rxAdjRssi)
    case _ => Whole(s.calibration.txRefRssi)
  }

  /** The foreign parsers: int.Parse and double.Parse on a non-null string,
      None when they throw. */
  datatype Parsers = Parsers(integer: string -> Option<int>, decimal: string -> Option<real>)
  {
    /** int.Parse of a payload: a null payload throws. */
    function Int(payload: Option<string>): Option<int>
    {
      if payload.None? then None else integer(payload.value)
    }

    /** double.Parse of a payload: a null payload throws. */
    function Double(payload: Option<string>): Option<real>
    {
      if payload.None? then None else decimal(payload.value)
    }
  }

  /** The k-th setting after the handler's case for it: the parsed payload
      is stored, or the parse throws (None). */
  function Assign(s: Settings, k: nat, payload: Option<string>, p: Parsers): (r: Option<Settings>)
    requires k < Count
    ensures payload.None? && (FieldOf(s, k).Whole? || FieldOf(s, k).Decimal?) ==> r.None?
  {
    match FieldOf(s, k)
    case Flag(_) =>
      var b := ParseBool(payload);
      if b.None? then None
      else if k == 0 then Some(s.(updating := s.updating.(autoUpdate := b)))
      else Some(s.(updating := s.updating.(preRelease := b)))
    case Whole(_) =>
      var i := p.Int(payload);
      if i.None? then None
      else if k == 2 then Some(s.(scanning := s.scanning.(forgetAfterMs := i)))
      else if k == 6 then Some(s.(counting := s.counting.(includeDevicesAge := i)))
      else if k == 11 then Some(s.(filtering := s.filtering.(skipReportAge := i)))
      else if k == 13 then Some(s.(calibration := s.calibration.(rxAdjRssi := i)))
      else Some(s.(calibration := s.calibration.(txRefRssi := i)))
    case Decimal(_) =>
      var x := p.Double(payload);
      if x.None? then None
      else if k == 4 then Some(s.(counting := s.counting.(startCountingDistance := x)))
      else if k == 5 then Some(s.(counting := s.counting.(stopCountingDistance := x)))
      else if k == 9 then Some(s.(filtering := s.filtering.(maxDistance := x)))
      else if k == 10 then Some(s.(filtering := s.filtering.(earlyReportDistance := x)))
      else Some(s.(calibration := s.calibration.(absorption := x)))
    case Text(_) =>
      if k == 3 then Some(s.(counting := s.counting.(idPrefixes := payload)))
      else if k == 7 then Some(s.(filtering := s.filtering.(includeIds := payload)))
      else Some(s.(filtering := s.filtering.(excludeIds := payload)))
  }

  /** A successful case changes exactly its own setting: every other setting
      and the id are as they were, and the setting holds the parsed payload
      (a text setting takes the payload itself). */
  lemma AssignChangesOneField(s: Settings, k: nat, payload: Option<string>, p: Parsers)
    requires k < Count && Assign(s, k, payload, p).Some?
    ensures var r := Assign(s, k, payload, p).value;
      && r.id == s.id
      && (forall j :: 0 <= j < Count && j != k ==> FieldOf(r, j) == FieldOf(s, j))
      && (FieldOf(s, k).Flag? ==> FieldOf(r, k) == Flag(ParseBool(payload)))
      && (FieldOf(s, k).Whole? ==> FieldOf(r, k) == Whole(p.Int(payload)))
      && (FieldOf(s, k).Decimal? ==> FieldOf(r, k) == Decimal(p.Double(payload)))
      && (FieldOf(s, k).Text? ==> FieldOf(r, k) == Text(payload))
  {
    var r := Assign(s, k, payload, p).value;
    if k == 0 {
      assert r == s.(updating := s.updating.(autoUpdate := ParseBool(payload)));
    } else if k == 1 {
      assert r == s.(updating := s.updating.(preRelease := ParseBool(payload)));
    } else if k == 2 {
      assert r == s.(scanning := s.scanning.(forgetAfterMs := p.Int(payload)));
    } else if k == 3 {
      assert r == s.(counting := s.counting.(idPrefixes := payload));
    } else if k == 4 {
      assert r == s.(counting := s.counting.(startCountingDistance := p.Double(payload)));
    } else if k == 5 {
      assert r == s.(counting := s.counting.(stopCountingDistance := p.Double(payload)));
    } else if k == 6 {
      assert r == s.(counting := s.counting.(includeDevicesAge := p.Int(payload)));
    } else if k == 7 {
      assert r == s.(filtering := s.filtering.(includeIds := payload));
    } else if k == 8 {
      assert r == s.(filtering := s.filtering.(excludeIds := payload));
    } else if k == 9 {
      assert r == s.(filtering := s.filtering.(maxDistance := p.Double(payload)));
    } else if k == 10 {
      assert r == s.(filtering := s.filtering.(earlyReportDistance := p.Double(payload)));
    } else if k == 11 {
      assert r == s.(filtering := s.filtering.(skipReportAge := p.Int(payload)));
    } else if k == 12 {
      assert r == s.(calibration := s.calibration.(absorption := p.Double(payload)));
    } else if k == 13 {
      assert r == s.(calibration := s.calibration.(rxAdjRssi := p.Int(payload)));
    } else {
      assert r == s.(calibration := s.calibration.(txRefRssi := p.Int(payload)));
    }
  }

  /** What one inbound setting message does to the stored settings. */
  function Handled(store: map<string, Settings>, nodeId: string, setting: string, payload: Option<string>, p: Parsers): map<string, Settings>
  {
    var current := if nodeId in store then store[nodeId] else Default(nodeId);
    var k := IndexOf(setting);
    if k.None? then store
    else
      var r := Assign(current, k.value, payload, p);
      if r.None? then store else store[nodeId := r.value]
  }

  /** An unrecognised setting name and a payload that fails to parse leave
      the store as it was; a recognised and parsed one replaces the node's
      entry by its current settings (or the defaults) with one setting
      changed, and leaves every other node's entry alone. */
  lemma HandledRule(store: map<string, Settings>, nodeId: string, setting: string, payload: Option<string>, p: Parsers)
    ensures setting !in Names ==> Handled(store, nodeId, setting, payload, p) == store
    ensures var current := if nodeId in store then store[nodeId] else Default(nodeId);
      setting in Names ==>
        var k := IndexOf(setting).value;
        && (Assign(current, k, payload, p).None? ==> Handled(store, nodeId, setting, payload, p) == store)
        && (Assign(current, k, payload, p).Some? ==>
              var r := Handled(store, nodeId, setting, payload, p);
              && nodeId in r && r[nodeId].id == current.id
              && (forall j :: 0 <= j < Count && j != k ==> FieldOf(r[nodeId], j) == FieldOf(current, j))
              && (forall other :: other != nodeId ==> (other in r <==> other in store) && (other in r ==> r[other] == store[other])))
  {
    if setting in Names {
      var current := if nodeId in store then store[nodeId] else Default(nodeId);
      var k := IndexOf(setting);
      if Assign(current, k.value, payload, p).Some? {
        AssignChangesOneField(current, k.value, payload, p);
      }
    }
  }

  // ---------------------------------------------------------------------
  // Set messages

  /** A set message's payload: "ON" or "OFF" for a switch, the formatted
      value otherwise (number formatting is not modelled). */
  datatype Payload = Switch(on: bool) | Formatted(value: Value)

  datatype SetMessage = SetMessage(id: string, setting: string, payload: Payload)

  /** The payload for a value: a switch is on exactly when it is true. */
  function PayloadOf(v: Value): (r: Payload)
    ensures v.Flag? ==> r.Switch? && (r.on <==> v.b == Some(true))
    ensures !v.Flag? ==> r == Formatted(v)
  {
    if v.Flag? then Switch(v.b == Some(true)) else Formatted(v)
  }

  /** Set sends the k-th setting when it is null or differs from the stored one. */
  predicate Sends(stored: Settings, ds: Settings, k: nat)
    requires k < Count
  {
    IsNull(FieldOf(ds, k)) || FieldOf(ds, k) != FieldOf(stored, k)
  }

  function Message(id: string, ds: Settings, k: nat): SetMessage
    requires k < Count
  {
    SetMessage(id, Names[k], PayloadOf(FieldOf(ds, k)))
  }

  /** The messages Set sends for the first n settings, in order. */
  function Diff(id: string, stored: Settings, ds: Settings, n: nat): (ms: seq<SetMessage>)
    requires n <= Count
    ensures |ms| <= n
  {
    if n == 0 then []
    else Diff(id, stored, ds, n - 1) + (if Sends(stored, ds, n - 1) then [Message(id, ds, n - 1)] else [])
  }

  /** Each setting name selects its own position. */
  lemma NamesIndexed()
    ensures forall k :: 0 <= k < Count ==> IndexOf(Names[k]) == Some(k)
  {
  }

  /** Set's messages are exactly one per setting it sends. */
  lemma {:induction false} DiffMembers(id: string, stored: Settings, ds: Settings, n: nat)
    requires n <= Count
    ensures forall m :: m in Diff(id, stored, ds, n) <==> exists k :: 0 <= k < n && Sends(stored, ds, k) && m == Message(id, ds, k)
  {
    if n > 0 {
      DiffMembers(id, stored, ds, n - 1);
    }
  }

  /** Every message names one of the first n settings. */
  lemma DiffNames(id: string, stored: Settings, ds: Settings, n: nat)
    requires n <= Count
    ensures forall m :: m in Diff(id, stored, ds, n) ==> IndexOf(m.setting).Some? && IndexOf(m.setting).value < n
  {
    DiffMembers(id, stored, ds, n);
    NamesIndexed();
    forall m | m in Diff(id, stored, ds, n) ensures IndexOf(m.setting).Some? && IndexOf(m.setting).value < n {
      var k :| 0 <= k < n && Sends(stored, ds, k) && m == Message(id, ds, k);
    }
  }

  /** Messages that name settings in the fixed setting order. */
  predicate InOrder(ms: seq<SetMessage>)
  {
    forall i, j :: 0 <= i < j < |ms| ==>
      IndexOf(ms[i].setting).Some? && IndexOf(ms[j].setting).Some? && IndexOf(ms[i].setting).value < IndexOf(ms[j].setting).value
  }

  /** Set's messages follow the fixed setting order. */
  lemma {:induction false} DiffOrdered(id: string, stored: Settings, ds: Settings, n: nat)
    requires n <= Count
    ensures InOrder(Diff(id, stored, ds, n))
  {
    if n > 0 {
      DiffOrdered(id, stored, ds, n - 1);
      DiffNames(id, stored, ds, n - 1);
      NamesIndexed();
      var prior := Diff(id, stored, ds, n - 1);
      var ms := Diff(id, stored, ds, n);
      forall i, j | 0 <= i < j < |ms|
        ensures IndexOf(ms[i].setting).Some? && IndexOf(ms[j].setting).Some?
        ensures IndexOf(ms[i].setting).value < IndexOf(ms[j].setting).value
      {
        if j == |prior| {
          assert ms[i] == prior[i] && prior[i] in prior;
          assert ms[j] == Message(id, ds, n - 1);
        } else {
          assert ms[i] == prior[i] && ms[j] == prior[j];
        }
      }
    }
  }

  /** Setting back exactly what is stored, with every setting present,
      sends nothing; a setting left null is always sent. */
  lemma DiffOfSame(id: string, stored: Settings, ds: Settings)
    ensures (forall k :: 0 <= k < Count ==> !IsNull(FieldOf(stored, k))) ==> Diff(id, stored, stored, Count) == []
    ensures forall k :: 0 <= k < Count && IsNull(FieldOf(ds, k)) ==> Message(id, ds, k) in Diff(id, stored, ds, Count)
  {
    DiffMembers(id, stored, ds, Count);
    DiffMembers(id, stored, stored, Count);
    if Diff(id, stored, stored, Count) != [] {
      assert Diff(id, stored, stored, Count)[0] in Diff(id, stored, stored, Count);
    }
  }

  // ---------------------------------------------------------------------
  // The store

  /** A NodeSettings object: the mutable copy the handler fills in. */
  class NodeSettings {
    var value: Settings

    constructor (value: Settings)
      ensures this.value == value
    {
      this.value := value;
    }

    /** Sets the k-th setting from the payload; on a parse failure the
        object is left as it was and false is returned (the exception). */
    method Apply(k: nat, payload: Option<string>, p: Parsers) returns (parsed: bool)
      requires k < Count
      modifies this
      ensures parsed <==> Assign(old(value), k, payload, p).Some?
      ensures parsed ==> value == Assign(old(value), k, payload, p).value
      ensures !parsed ==> value == old(value)
    {
      var r := Assign(value, k, payload, p);
      if r.None? {
        return false;
      }
      value := r.value;
      return true;
    }
  }

  class NodeSettingsStore {
    /** _storeById, keyed by node id (ordinal comparison). */
    var store: map<string, NodeSettings>
    /** The set messages enqueued so far. */
    var outbox: seq<SetMessage>

    constructor ()
      ensures store == map[] && outbox == []
    {
      store, outbox := map[], [];
    }

    /** The stored settings as values. */
    function Stored(): map<string, Settings>
      reads this, store.Values
    {
      map id | id in store :: store[id].value
    }

    /** Get: a copy of the stored settings, or a fresh default for an unknown
        node; never the stored object itself. */
    method Get(id: string) returns (ns: NodeSettings)
      ensures fresh(ns)
      ensures ns.value == if id in Stored() then Stored()[id] else Default(id)
    {
      if id in store {
        ns := new NodeSettings(store[id].value);
      } else {
        ns := new NodeSettings(Default(id));
      }
    }

    /** The handler for one inbound setting: take a copy of
        the node's settings, apply the named setting, and store the copy;
        an unknown name returns early and a parse error is caught, both
        without storing anything. */
    method Handle(nodeId: string, setting: string, payload: Option<string>, p: Parsers)
      modifies this
      ensures Stored() == Handled(old(Stored()), nodeId, setting, payload, p)
      ensures outbox == old(outbox)
    {
      ghost var before := Stored();
      var ns := Get(nodeId);
      var k := IndexOf(setting);
      if k.None? {
        return;
      }
      var parsed := ns.Apply(k.value, payload, p);
      assert Stored() == before;
      if !parsed {
        return;
      }
      store := store[nodeId := ns];
      assert Stored() == before[nodeId := ns.value];
    }

    /** Set: compare the requested settings with the stored ones and send a
        set message for each setting that is null or differs, in order. The
        store itself is not changed. */
    method Set(id: string, ds: Settings)
      modifies this
      ensures outbox == old(outbox) + Diff(id, if id in old(Stored()) then old(Stored())[id] else Default(id), ds, Count)
      ensures store == old(store) && Stored() == old(Stored())
    {
      var current := Get(id);
      var stored := current.value;
      for k := 0 to Count
        invariant outbox == old(outbox) + Diff(id, stored, ds, k)
        invariant store == old(store)
      {
        assert Diff(id, stored, ds, k + 1) == Diff(id, stored, ds, k) + (if Sends(stored, ds, k) then [Message(id, ds, k)] else []);
        if IsNull(FieldOf(ds, k)) || FieldOf(ds, k) != FieldOf(stored, k) {
          outbox := outbox + [Message(id, ds, k)];
        }
      }
    }
  }
}
