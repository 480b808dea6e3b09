/** The option vocabulary of a strategy: which keys may be pushed, which values
    each key accepts, and the sanitizer every stored or pushed map goes through. */
module Options {

  datatype Option<+T> = None | Some(value: T)

  /** A flat map of option keys to string values, as it travels on the wire. */
  type OptionMap = map<string, string>

  // ------------------------------------------------------------ allowlist ---

  datatype Spec =
    | BoolSpec
    | EnumSpec(values: set<string>)
    | IntSpec(min: int, max: int)
    | TextSpec

  const BOOL_KEYS: set<string> := {
    "enable-keyboard", "enable-clipboard", "enable-file-transfer", "enable-audio", "enable-camera",
    "enable-terminal", "enable-tunnel", "enable-remote-restart", "enable-record-session",
    "enable-block-input", "enable-privacy-mode", "enable-remote-printer",
    "allow-numeric-one-time-password", "allow-only-conn-window-open", "enable-trusted-devices",
    "allow-remote-config-modification", "allow-auto-disconnect", "allow-scope-violation-alarm",
    "allow-scope-violation-close", "enable-abr", "allow-remove-wallpaper",
    "allow-auto-record-incoming", "keep-awake-during-incoming-sessions", "enable-lan-discovery",
    "allow-auto-update"
  }

  function SpecOf(key: string): Option<Spec> {
    if key in BOOL_KEYS then Some(BoolSpec)
    else if key == "access-mode" then Some(EnumSpec({"", "full", "view", "custom"}))
    else if key == "verification-method" then
      Some(EnumSpec({"", "use-temporary-password", "use-permanent-password", "use-both-passwords"}))
    else if key == "approve-mode" then Some(EnumSpec({"", "password", "click", "password-click"}))
    else if key == "temporary-password-length" then Some(EnumSpec({"", "6", "8", "10"}))
    else if key == "whitelist" then Some(TextSpec)
    else if key == "auto-disconnect-timeout" then Some(IntSpec(1, 1440))
    else None
  }

  predicate IsDigits(s: string) {
    s != "" && forall i :: 0 <= i < |s| ==> '0' <= s[i] <= '9'
  }

  const INT_MAX: int := 0x7fff_ffff_ffff_ffff

  /** The integer a digit string converts to; the conversion saturates. */
  function IntOf(s: string): int
    requires forall i :: 0 <= i < |s| ==> '0' <= s[i] <= '9'
  {
    if s == "" then 0
    else
      var n := IntOf(s[..|s| - 1]) * 10 + (s[|s| - 1] as int - '0' as int);
      if n > INT_MAX then INT_MAX else n
  }

  predicate Accepts(spec: Spec, value: string) {
    match spec
    case BoolSpec => value in {"Y", "N", ""}
    case EnumSpec(values) => value in values
    case IntSpec(min, max) => value == "" || (IsDigits(value) && min <= IntOf(value) <= max)
    case TextSpec => true
  }

  /** Every key is allowlisted, with a value its type accepts. */
  predicate Pushable(m: OptionMap) {
    forall k :: k in m ==> SpecOf(k).Some? && Accepts(SpecOf(k).value, m[k])
  }

  /** "" resets a key to the client's default and is legal for every key. */
  lemma ResetIsAccepted(key: string)
    requires SpecOf(key).Some?
    ensures Accepts(SpecOf(key).value, "")
  {
  }

  /** What may stand under each kind of key: a switch is on, off or reset; the four
      choices take their own words or a reset; the whitelist takes any text. */
  lemma Vocabulary(key: string, value: string)
    requires SpecOf(key).Some? && key != "auto-disconnect-timeout"
    ensures var ok := Accepts(SpecOf(key).value, value);
      && (key in BOOL_KEYS ==> (ok <==> value == "Y" || value == "N" || value == ""))
      && (key == "access-mode" ==> (ok <==> value in {"", "full", "view", "custom"}))
      && (key == "verification-method" ==>
            (ok <==> value in {"", "use-temporary-password", "use-permanent-password", "use-both-passwords"}))
      && (key == "approve-mode" ==> (ok <==> value in {"", "password", "click", "password-click"}))
      && (key == "temporary-password-length" ==> (ok <==> value in {"", "6", "8", "10"}))
      && (key == "whitelist" ==> ok)
  {
    if key in BOOL_KEYS {
      ThirdLetter(key);
    }
  }

  /** No other key starts like a switch. */
  lemma ThirdLetter(key: string)
    requires key in BOOL_KEYS
    ensures |key| > 2 && (key[2] == 'a' || key[2] == 'l' || key[2] == 'e')
  {
  }

  // -------------------------------------------------------------- trimming ---

  predicate IsBlank(c: char) {
    c == ' ' || c == '\t' || c == '\n' || c == '\r' || c == '\0' || c == '\U{000B}'
  }

  function TrimLeft(s: string): (r: string)
    ensures r != "" ==> !IsBlank(r[0])
  {
    if s != "" && IsBlank(s[0]) then TrimLeft(s[1..]) else s
  }

  function TrimRight(s: string): (r: string)
    ensures r <= s
    ensures r != "" ==> !IsBlank(r[|r| - 1])
  {
    if s != "" && IsBlank(s[|s| - 1]) then TrimRight(s[..|s| - 1]) else s
  }

  function Trim(s: string): (r: string)
    ensures r != "" ==> !IsBlank(r[0]) && !IsBlank(r[|r| - 1])
  {
    TrimRight(TrimLeft(s))
  }

  lemma TrimIdempotent(s: string)
    ensures Trim(Trim(s)) == Trim(s)
  {
    assert TrimLeft(Trim(s)) == Trim(s);
  }

  // The six characters that count as padding.
  const PADDING: string := " \t\n\r\0\U{000B}"

  predicate AllPadding(s: string) {
    forall i :: 0 <= i < |s| ==> s[i] in PADDING
  }

  predicate Tight(s: string) {
    s != "" ==> s[0] !in PADDING && s[|s| - 1] !in PADDING
  }

  /** The text is `core` between paddings. */
  ghost predicate Pads(text: string, core: string) {
    exists i, j :: 0 <= i <= j <= |text| && text[i..j] == core && AllPadding(text[..i]) && AllPadding(text[j..])
  }

  lemma BlankIsPadding(c: char)
    ensures IsBlank(c) <==> c in PADDING
  {
    assert PADDING == [' ', '\t', '\n', '\r', '\0', '\U{000B}'];
  }

  /** Trimming on the left drops `pre` and nothing else. */
  lemma {:induction false} TrimLeftStrips(pre: string, rest: string)
    requires AllPadding(pre) && (rest != "" ==> rest[0] !in PADDING)
    ensures TrimLeft(pre + rest) == rest
  {
    if pre == "" {
      assert pre + rest == rest;
      if rest != "" { BlankIsPadding(rest[0]); }
    } else {
      BlankIsPadding(pre[0]);
      assert (pre + rest)[1..] == pre[1..] + rest;
      TrimLeftStrips(pre[1..], rest);
    }
  }

  lemma {:induction false} TrimRightStrips(rest: string, post: string)
    requires AllPadding(post) && (rest != "" ==> rest[|rest| - 1] !in PADDING)
    ensures TrimRight(rest + post) == rest
  {
    if post == "" {
      assert rest + post == rest;
      if rest != "" { BlankIsPadding(rest[|rest| - 1]); }
    } else {
      var n := |post| - 1;
      BlankIsPadding(post[n]);
      assert (rest + post)[..|rest + post| - 1] == rest + post[..n];
      TrimRightStrips(rest, post[..n]);
    }
  }

  lemma TrimParts(pre: string, core: string, post: string)
    requires AllPadding(pre) && AllPadding(post) && Tight(core)
    ensures Trim(pre + core + post) == core
  {
    if core == "" {
      assert AllPadding(pre + post);
      assert pre + core + post == (pre + post) + "";
      TrimLeftStrips(pre + post, "");
    } else {
      assert pre + core + post == pre + (core + post);
      TrimLeftStrips(pre, core + post);
      TrimRightStrips(core, post);
    }
  }

  lemma PadsInParts(text: string, i: nat, j: nat)
    requires i <= j <= |text|
    ensures text == text[..i] + text[i..j] + text[j..]
  {
  }

  lemma TrimStrips(text: string, core: string)
    requires Pads(text, core) && Tight(core)
    ensures Trim(text) == core
  {
    var i, j :| 0 <= i <= j <= |text| && text[i..j] == core && AllPadding(text[..i]) && AllPadding(text[j..]);
    PadsInParts(text, i, j);
    TrimParts(text[..i], core, text[j..]);
  }

  lemma {:induction false} TrimLeftPads(s: string) returns (i: nat)
    ensures i <= |s| && AllPadding(s[..i]) && TrimLeft(s) == s[i..]
  {
    if s != "" && IsBlank(s[0]) {
      BlankIsPadding(s[0]);
      i := TrimLeftPads(s[1..]);
      assert s[1..][i..] == s[i + 1..];
      assert forall k :: 1 <= k < i + 1 ==> s[k] == s[1..][..i][k - 1];
      i := i + 1;
    } else {
      i := 0;
    }
  }

  lemma {:induction false} TrimRightPads(s: string) returns (j: nat)
    ensures j <= |s| && AllPadding(s[j..]) && TrimRight(s) == s[..j]
  {
    if s != "" && IsBlank(s[|s| - 1]) {
      var before := s[..|s| - 1];
      BlankIsPadding(s[|s| - 1]);
      j := TrimRightPads(before);
      assert before[..j] == s[..j];
      assert forall k :: j <= k < |s| - 1 ==> s[k] == before[j..][k - j];
    } else {
      j := |s|;
    }
  }

  /** Trimming removes exactly the padding around a text. */
  lemma TrimExactly(text: string, core: string)
    ensures Trim(text) == core <==> Tight(core) && Pads(text, core)
  {
    if Trim(text) == core {
      var i := TrimLeftPads(text);
      var j := TrimRightPads(TrimLeft(text));
      assert text[i..][..j] == text[i..i + j] && text[i..][j..] == text[i + j..];
      if core != "" {
        BlankIsPadding(core[0]);
        BlankIsPadding(core[|core| - 1]);
      }
    }
    if Tight(core) && Pads(text, core) {
      TrimStrips(text, core);
    }
  }

  // ------------------------------------------------------------- sanitizer ---

  /** A value as a form or a stored row may hold it. A number carries the text
      the platform prints for it. */
  datatype RawValue = Null | Flag(flag: bool) | Number(printed: string) | Text(text: string) | Composite

  function Printed(v: RawValue): Option<string> {
    match v
    case Null => None
    case Flag(b) => Some(if b then "Y" else "N")
    case Number(s) => Some(s)
    case Text(s) => Some(s)
    case Composite => None
  }

  /** What one entry contributes to the clean map, if anything. */
  function Clean(key: string, v: RawValue): Option<string> {
    if SpecOf(key).None? || Printed(v).None? then None
    else
      var s := Trim(Printed(v).value);
      if Accepts(SpecOf(key).value, s) then Some(s) else None
  }

  function Sanitize(raw: map<string, RawValue>): OptionMap {
    map k | k in raw && Clean(k, raw[k]).Some? :: Clean(k, raw[k]).value
  }

  /** A clean map read back as raw input. */
  function AsRaw(m: OptionMap): map<string, RawValue> {
    map k | k in m :: Text(m[k])
  }

  /** What the sanitizer promises for one entry: `x` is a legal, unpadded value of an
      allowlisted key and is what the entry says, up to padding around a text. */
  ghost predicate Says(key: string, v: RawValue, x: string) {
    && SpecOf(key).Some? && Accepts(SpecOf(key).value, x) && Tight(x)
    && match v
       case Null => false
       case Flag(b) => x == if b then "Y" else "N"
       case Number(s) => Pads(s, x)
       case Text(s) => Pads(s, x)
       case Composite => false
  }

  lemma FlagIsTight(b: bool)
    ensures Trim(if b then "Y" else "N") == if b then "Y" else "N"
  {
    var s := if b then "Y" else "N";
    assert s[0..1] == s && s[..0] == "" && s[1..] == "";
    TrimExactly(s, s);
  }

  /** An entry survives with a value exactly when it says so: no legal value is lost or
      altered, and nothing else gets in. */
  lemma CleanExactly(key: string, v: RawValue, x: string)
    ensures Clean(key, v) == Some(x) <==> Says(key, v, x)
  {
    match v
    case Flag(b) =>
      FlagIsTight(b);
      assert Tight("Y") && Tight("N");
    case Number(s) => TrimExactly(s, x);
    case Text(s) => TrimExactly(s, x);
    case _ =>
  }

  /** Legal values without padding pass through unchanged. */
  lemma SanitizeKeepsLegal(m: OptionMap)
    requires Pushable(m) && forall k :: k in m ==> Tight(m[k])
    ensures Sanitize(AsRaw(m)) == m
  {
    forall k | k in m
      ensures Clean(k, Text(m[k])) == Some(m[k])
    {
      assert m[k][0..|m[k]|] == m[k] && m[k][..0] == "" && m[k][|m[k]|..] == "";
      CleanExactly(k, Text(m[k]), m[k]);
    }
  }

  /** The decimal numeral of a number. */
  function Decimal(n: nat): (s: string)
    ensures IsDigits(s)
  {
    var digit := (n % 10) as char + '0';
    if n < 10 then [digit] else Decimal(n / 10) + [digit]
  }

  lemma {:induction false} DecimalReadsBack(n: nat)
    requires n <= INT_MAX
    ensures IntOf(Decimal(n)) == n
    decreases n
  {
    var digit := (n % 10) as char + '0';
    assert digit as int - '0' as int == n % 10;
    if n < 10 {
      assert Decimal(n)[..0] == "";
      assert IntOf("") == 0;
    } else {
      DecimalReadsBack(n / 10);
      assert Decimal(n)[..|Decimal(n)| - 1] == Decimal(n / 10);
    }
  }

  lemma DigitsAreTight(s: string)
    requires IsDigits(s)
    ensures Trim(s) == s
  {
    assert PADDING == [' ', '\t', '\n', '\r', '\0', '\U{000B}'];
    assert s[0..|s|] == s && s[..0] == "" && s[|s|..] == "";
    TrimExactly(s, s);
  }

  lemma TimeoutSpec()
    ensures SpecOf("auto-disconnect-timeout") == Some(IntSpec(1, 1440))
  {
    assert "auto-disconnect-timeout"[2] == 't';
    if "auto-disconnect-timeout" in BOOL_KEYS {
      ThirdLetter("auto-disconnect-timeout");
    }
  }

  /** A disconnect timeout is a number of minutes up to a day. */
  lemma TimeoutsAreMinutesOfADay(n: nat)
    requires n <= INT_MAX
    ensures Clean("auto-disconnect-timeout", Number(Decimal(n))) == Some(Decimal(n)) <==> 1 <= n <= 1440
  {
    DecimalReadsBack(n);
    TimeoutSpec();
    DigitsAreTight(Decimal(n));
  }

  lemma SanitizedIsPushable(raw: map<string, RawValue>)
    ensures Pushable(Sanitize(raw))
  {
  }

  lemma SanitizeIdempotent(raw: map<string, RawValue>)
    ensures Sanitize(AsRaw(Sanitize(raw))) == Sanitize(raw)
  {
    var clean := Sanitize(raw);
    forall k | k in clean
      ensures Clean(k, Text(clean[k])) == Some(clean[k])
    {
      TrimIdempotent(Printed(raw[k]).value);
    }
  }

  // An input array: distinct keys, in the order the caller supplied them.
  type Entries = seq<(string, RawValue)>

  predicate DistinctKeys(entries: Entries) {
    forall i, j :: 0 <= i < j < |entries| ==> entries[i].0 != entries[j].0
  }

  function AsMap(entries: Entries): map<string, RawValue> {
    if entries == [] then map[]
    else AsMap(entries[..|entries| - 1])[entries[|entries| - 1].0 := entries[|entries| - 1].1]
  }

  lemma {:induction false} AsMapLookup(entries: Entries, key: string, v: RawValue)
    requires DistinctKeys(entries)
    ensures (key, v) in entries <==> key in AsMap(entries) && AsMap(entries)[key] == v
  {
    if entries != [] {
      var n := |entries| - 1;
      AsMapLookup(entries[..n], key, v);
      assert entries == entries[..n] + [entries[n]];
    }
  }

  lemma AsMapIgnoresOrder(a: Entries, b: Entries, key: string)
    requires DistinctKeys(a) && DistinctKeys(b)
    requires multiset(a) == multiset(b)
    requires key in AsMap(a)
    ensures key in AsMap(b) && AsMap(b)[key] == AsMap(a)[key]
  {
    var v := AsMap(a)[key];
    AsMapLookup(a, key, v);
    AsMapLookup(b, key, v);
    assert (key, v) in multiset(a);
    assert (key, v) in multiset(b);
  }

  lemma SanitizeIgnoresOrder(a: Entries, b: Entries)
    requires DistinctKeys(a) && DistinctKeys(b)
    requires multiset(a) == multiset(b)
    ensures Sanitize(AsMap(a)) == Sanitize(AsMap(b))
  {
    forall key | key in AsMap(a)
      ensures key in AsMap(b) && AsMap(b)[key] == AsMap(a)[key]
    {
      AsMapIgnoresOrder(a, b, key);
    }
    forall key | key in AsMap(b)
      ensures key in AsMap(a)
    {
      AsMapIgnoresOrder(b, a, key);
    }
    assert AsMap(a) == AsMap(b);
  }

  /** One more entry under a new key changes the clean map by that key alone. */
  lemma SanitizeOneMore(raw: map<string, RawValue>, key: string, v: RawValue)
    requires key !in raw
    ensures Sanitize(raw[key := v]) ==
            if Clean(key, v).Some? then Sanitize(raw)[key := Clean(key, v).value] else Sanitize(raw)
  {
  }

  lemma NextKeyIsNew(entries: Entries, i: nat)
    requires DistinctKeys(entries) && i < |entries|
    ensures DistinctKeys(entries[..i]) && entries[i].0 !in AsMap(entries[..i])
    ensures AsMap(entries[..i + 1]) == AsMap(entries[..i])[entries[i].0 := entries[i].1]
  {
    var seen := AsMap(entries[..i]);
    assert entries[..i + 1][..i] == entries[..i];
    if entries[i].0 in seen {
      AsMapLookup(entries[..i], entries[i].0, seen[entries[i].0]);
    }
  }

  ghost predicate SaidIn(entries: Entries, k: string, x: string) {
    exists v :: (k, v) in entries && Says(k, v, x)
  }

  lemma SaidByAnEntry(entries: Entries, k: string, x: string)
    requires DistinctKeys(entries)
    ensures var raw := AsMap(entries);
      SaidIn(entries, k, x) <==> k in raw && Clean(k, raw[k]) == Some(x)
  {
    var raw := AsMap(entries);
    if k in raw {
      AsMapLookup(entries, k, raw[k]);
      CleanExactly(k, raw[k], x);
    }
    if v :| (k, v) in entries && Says(k, v, x) {
      AsMapLookup(entries, k, v);
    }
  }

  /** The clean map holds exactly what the entries legally say. */
  lemma SanitizeSays(entries: Entries)
    requires DistinctKeys(entries)
    ensures var clean := Sanitize(AsMap(entries));
      forall k, x :: SaidIn(entries, k, x) <==> k in clean && clean[k] == x
  {
    forall k, x
      ensures SaidIn(entries, k, x) <==> k in Sanitize(AsMap(entries)) && Sanitize(AsMap(entries))[k] == x
    {
      SaidByAnEntry(entries, k, x);
    }
  }

  /** The body of the sanitizing loop for one entry. */
  method CleanEntry(key: string, value: RawValue) returns (r: Option<string>)
    ensures r == Clean(key, value)
  {
    var spec := SpecOf(key);
    if spec.None? || value == Null || value == Composite {
      return None;
    }
    var text := match value
      case Flag(b) => if b then "Y" else "N"
      case Number(s) => s
      case Text(s) => s;
    text := Trim(text);
    r := if Accepts(spec.value, text) then Some(text) else None;
  }

  /** The sanitizing loop, over entries in the order the form sent them. */
  method SanitizeOptions(entries: Entries) returns (clean: OptionMap)
    requires DistinctKeys(entries)
    ensures clean == Sanitize(AsMap(entries))
    ensures Pushable(clean)
    ensures forall k, x :: SaidIn(entries, k, x) <==> k in clean && clean[k] == x
  {
    clean := map[];
    for i := 0 to |entries|
      invariant clean == Sanitize(AsMap(entries[..i]))
    {
      var (key, value) := entries[i];
      NextKeyIsNew(entries, i);
      SanitizeOneMore(AsMap(entries[..i]), key, value);
      var kept := CleanEntry(key, value);
      if kept.Some? {
        clean := clean[key := kept.value];
      }
    }
    assert entries[..|entries|] == entries;
    SanitizedIsPushable(AsMap(entries));
    SanitizeSays(entries);
  }
}
