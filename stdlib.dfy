/** The stdlib-log adapter: turns a line written by Go's standard `log`
    package into an ordered key/value event for a go-kit logger. The
    regular-expression engine is a library and enters the model as the
    parameter `find` (its `FindStringSubmatch`); the wrapped logger enters
    as the parameter `loggerLog` (its `Log`). */
module Stdlib {
  import opened KitValues
  import opened GoStrings

  /** The regular expression the adapter parses lines with. The two
      predefined ones are named; any other compiled expression is known by
      an identity and its sub-expression names. */
  datatype Regexp =
    | StdlibRegexpFull
    | StdlibRegexpDefault
    | Compiled(id: nat, names: seq<string>)

  /** `Regexp.SubexpNames`: one name per group, "" for group 0 and for
      unnamed groups. The full pattern has groups date, time, the unnamed
      fractional seconds, file, the unnamed ": " separator and msg; the
      default pattern is the same without file. */
  function SubexpNames(re: Regexp): (r: seq<string>)
    ensures !re.Compiled? ==> |r| > 0 && r[0] == "" && "date" in r && "time" in r && "msg" in r
    ensures !re.Compiled? ==> forall i, j :: 0 <= i < j < |r| && r[i] != "" ==> r[i] != r[j]
    ensures re.StdlibRegexpFull? <==> !re.Compiled? && "file" in r
    ensures re.Compiled? ==> r == re.names
  {
    match re
    case StdlibRegexpFull => ["", "date", "time", "", "file", "", "msg"]
    case StdlibRegexpDefault => ["", "date", "time", "", "", "msg"]
    case Compiled(_, names) => names
  }

  /** `FindStringSubmatch` of the library engine: the whole match and one
      capture per group, or the empty sequence (Go's nil) for no match. */
  type Engine = (Regexp, string) -> seq<string>

  /** The wrapped go-kit logger, known by identity; what a logger's `Log`
      returns for an event enters `Write` as a parameter. */
  datatype LoggerRef = LoggerRef(id: nat)

  datatype StdlibAdapter = StdlibAdapter(
    logger: LoggerRef,
    timestampKey: string,
    fileKey: string,
    messageKey: string,
    prefix: string,
    joinPrefixToMsg: bool,
    logRegexp: Regexp)

  /** A `StdlibAdapterOption`: Go's `func(*StdlibAdapter)`, which updates
      the adapter under construction, as a function from the adapter before
      to the adapter after. */
  type AdapterOption = StdlibAdapter -> StdlibAdapter

  /** `TimestampKey`: sets the timestamp key and nothing else. */
  function TimestampKey(key: string): (o: AdapterOption)
    ensures forall a :: o(a) == a.(timestampKey := key)
  {
    (a: StdlibAdapter) => a.(timestampKey := key)
  }

  /** `FileKey`: sets the file key and nothing else. */
  function FileKey(key: string): (o: AdapterOption)
    ensures forall a :: o(a) == a.(fileKey := key)
  {
    (a: StdlibAdapter) => a.(fileKey := key)
  }

  /** `MessageKey`: sets the message key and nothing else. */
  function MessageKey(key: string): (o: AdapterOption)
    ensures forall a :: o(a) == a.(messageKey := key)
  {
    (a: StdlibAdapter) => a.(messageKey := key)
  }

  /** `StdlibRegexp`: a nil regexp gives an option that changes nothing;
      any other sets the regexp and nothing else. */
  function StdlibRegexp(re: Option<Regexp>): (o: AdapterOption)
    ensures re.None? ==> forall a :: o(a) == a
    ensures re.Some? ==> forall a :: o(a) == a.(logRegexp := re.value)
  {
    match re
    case None => (a: StdlibAdapter) => a
    case Some(r) => (a: StdlibAdapter) => a.(logRegexp := r)
  }

  /** `Prefix`: sets the prefix and the join flag together, nothing else. */
  function Prefix(prefix: string, joinPrefixToMsg: bool): (o: AdapterOption)
    ensures forall a :: o(a) == a.(prefix := prefix, joinPrefixToMsg := joinPrefixToMsg)
  {
    (a: StdlibAdapter) => a.(prefix := prefix, joinPrefixToMsg := joinPrefixToMsg)
  }

  /** The adapter `NewStdlibAdapter` starts from, before its options. */
  function Defaults(logger: LoggerRef): StdlibAdapter {
    StdlibAdapter(logger, "ts", "caller", "msg", "", false, StdlibRegexpFull)
  }

  /** The options applied to `a`, first to last. */
  function ApplyAll(a: StdlibAdapter, options: seq<AdapterOption>): StdlibAdapter
    decreases |options|
  {
    if options == [] then a else ApplyAll(options[0](a), options[1..])
  }

  /** `NewStdlibAdapter`: the defaults, updated by each option in turn. */
  method NewStdlibAdapter(logger: LoggerRef, options: seq<AdapterOption>) returns (a: StdlibAdapter)
    ensures a == ApplyAll(Defaults(logger), options)
    ensures options == [] ==>
      a.timestampKey == "ts" && a.fileKey == "caller" && a.messageKey == "msg" &&
      a.prefix == "" && !a.joinPrefixToMsg && a.logRegexp == StdlibRegexpFull
  {
    a := Defaults(logger);
    var i := 0;
    while i < |options|
      invariant 0 <= i <= |options|
      invariant ApplyAll(a, options[i..]) == ApplyAll(Defaults(logger), options)
    {
      assert options[i..][1..] == options[i + 1..];
      a := options[i](a);
      i := i + 1;
    }
    assert options[i..] == [];
  }

  /** Applying two lists of options is applying their concatenation. */
  lemma {:induction false} ApplyAllAppend(a: StdlibAdapter, xs: seq<AdapterOption>, ys: seq<AdapterOption>)
    ensures ApplyAll(a, xs + ys) == ApplyAll(ApplyAll(a, xs), ys)
    decreases |xs|
  {
    if xs == [] {
      assert xs + ys == ys;
    } else {
      assert (xs + ys)[0] == xs[0];
      assert (xs + ys)[1..] == xs[1..] + ys;
      ApplyAllAppend(xs[0](a), xs[1..], ys);
    }
  }

  /** The last option is applied last: its update is what remains. */
  lemma LastOptionApplied(a: StdlibAdapter, options: seq<AdapterOption>, o: AdapterOption)
    ensures ApplyAll(a, options + [o]) == o(ApplyAll(a, options))
  {
    ApplyAllAppend(a, options, [o]);
    assert ApplyAll(o(ApplyAll(a, options)), []) == o(ApplyAll(a, options));
  }

  /** The fields of an adapter, one projection each, so that "an option
      leaves this field alone" can be said once for every field. */
  function LoggerOf(a: StdlibAdapter): LoggerRef { a.logger }
  function TimestampKeyOf(a: StdlibAdapter): string { a.timestampKey }
  function FileKeyOf(a: StdlibAdapter): string { a.fileKey }
  function MessageKeyOf(a: StdlibAdapter): string { a.messageKey }
  function PrefixOf(a: StdlibAdapter): (string, bool) { (a.prefix, a.joinPrefixToMsg) }
  function RegexpOf(a: StdlibAdapter): Regexp { a.logRegexp }

  /** The option leaves the field that `field` projects unchanged. */
  ghost predicate Keeps<T>(o: AdapterOption, field: StdlibAdapter -> T) {
    forall a :: field(o(a)) == field(a)
  }

  /** Options that all leave a field alone leave it alone together. */
  lemma {:induction false} ApplyAllKeeps<T>(a: StdlibAdapter, options: seq<AdapterOption>, field: StdlibAdapter -> T)
    requires forall i :: 0 <= i < |options| ==> Keeps(options[i], field)
    ensures field(ApplyAll(a, options)) == field(a)
    decreases |options|
  {
    if options != [] {
      assert Keeps(options[0], field);
      assert forall i :: 0 <= i < |options[1..]| ==> options[1..][i] == options[i + 1];
      ApplyAllKeeps(options[0](a), options[1..], field);
    }
  }

  /** The package's own options never touch the wrapped logger, and each
      leaves alone the fields it does not set. */
  lemma PackageOptionsKeepOtherFields(key: string, re: Option<Regexp>, prefix: string, join: bool)
    ensures Keeps(TimestampKey(key), LoggerOf) && Keeps(FileKey(key), LoggerOf) && Keeps(MessageKey(key), LoggerOf)
      && Keeps(StdlibRegexp(re), LoggerOf) && Keeps(Prefix(prefix, join), LoggerOf)
    ensures Keeps(FileKey(key), TimestampKeyOf) && Keeps(MessageKey(key), TimestampKeyOf)
      && Keeps(StdlibRegexp(re), TimestampKeyOf) && Keeps(Prefix(prefix, join), TimestampKeyOf)
    ensures Keeps(TimestampKey(key), FileKeyOf) && Keeps(MessageKey(key), FileKeyOf)
      && Keeps(StdlibRegexp(re), FileKeyOf) && Keeps(Prefix(prefix, join), FileKeyOf)
    ensures Keeps(TimestampKey(key), MessageKeyOf) && Keeps(FileKey(key), MessageKeyOf)
      && Keeps(StdlibRegexp(re), MessageKeyOf) && Keeps(Prefix(prefix, join), MessageKeyOf)
    ensures Keeps(TimestampKey(key), PrefixOf) && Keeps(FileKey(key), PrefixOf)
      && Keeps(MessageKey(key), PrefixOf) && Keeps(StdlibRegexp(re), PrefixOf)
    ensures Keeps(TimestampKey(key), RegexpOf) && Keeps(FileKey(key), RegexpOf)
      && Keeps(MessageKey(key), RegexpOf) && Keeps(Prefix(prefix, join), RegexpOf)
  {
    TimestampKeyKeeps(key);
    FileKeyKeeps(key);
    MessageKeyKeeps(key);
    StdlibRegexpKeeps(re);
    PrefixKeeps(prefix, join);
  }

  lemma TimestampKeyKeeps(key: string)
    ensures Keeps(TimestampKey(key), LoggerOf) && Keeps(TimestampKey(key), FileKeyOf)
      && Keeps(TimestampKey(key), MessageKeyOf) && Keeps(TimestampKey(key), PrefixOf)
      && Keeps(TimestampKey(key), RegexpOf)
  {
  }

  lemma FileKeyKeeps(key: string)
    ensures Keeps(FileKey(key), LoggerOf) && Keeps(FileKey(key), TimestampKeyOf)
      && Keeps(FileKey(key), MessageKeyOf) && Keeps(FileKey(key), PrefixOf)
      && Keeps(FileKey(key), RegexpOf)
  {
  }

  lemma MessageKeyKeeps(key: string)
    ensures Keeps(MessageKey(key), LoggerOf) && Keeps(MessageKey(key), TimestampKeyOf)
      && Keeps(MessageKey(key), FileKeyOf) && Keeps(MessageKey(key), PrefixOf)
      && Keeps(MessageKey(key), RegexpOf)
  {
  }

  lemma StdlibRegexpKeeps(re: Option<Regexp>)
    ensures Keeps(StdlibRegexp(re), LoggerOf) && Keeps(StdlibRegexp(re), TimestampKeyOf)
      && Keeps(StdlibRegexp(re), FileKeyOf) && Keeps(StdlibRegexp(re), MessageKeyOf)
      && Keeps(StdlibRegexp(re), PrefixOf)
  {
  }

  lemma PrefixKeeps(prefix: string, join: bool)
    ensures Keeps(Prefix(prefix, join), LoggerOf) && Keeps(Prefix(prefix, join), TimestampKeyOf)
      && Keeps(Prefix(prefix, join), FileKeyOf) && Keeps(Prefix(prefix, join), MessageKeyOf)
      && Keeps(Prefix(prefix, join), RegexpOf)
  {
  }

  /** An adapter built only from options that leave the wrapped logger
      alone wraps the logger it was given. A user-written option is an
      arbitrary function and may replace it. */
  lemma OptionsKeepLogger(logger: LoggerRef, options: seq<AdapterOption>)
    requires forall i :: 0 <= i < |options| ==> Keeps(options[i], LoggerOf)
    ensures ApplyAll(Defaults(logger), options).logger == logger
  {
    ApplyAllKeeps(Defaults(logger), options, LoggerOf);
  }

  /** An option that sets a field to `v`, followed only by options that
      leave that field alone, decides the field. */
  lemma SetThenKept<T>(a: StdlibAdapter, xs: seq<AdapterOption>, o: AdapterOption, zs: seq<AdapterOption>,
                       field: StdlibAdapter -> T, v: T)
    requires forall b :: field(o(b)) == v
    requires forall i :: 0 <= i < |zs| ==> Keeps(zs[i], field)
    ensures field(ApplyAll(a, xs + [o] + zs)) == v
  {
    ApplyAllAppend(a, xs + [o], zs);
    LastOptionApplied(a, xs, o);
    ApplyAllKeeps(o(ApplyAll(a, xs)), zs, field);
  }

  /** When two options set the timestamp key, the later one wins, whatever
      was applied between them and whatever follows that leaves the key
      alone. */
  lemma LaterTimestampKeyWins(logger: LoggerRef, xs: seq<AdapterOption>, first: string, ys: seq<AdapterOption>,
                              last: string, zs: seq<AdapterOption>)
    requires forall i :: 0 <= i < |zs| ==> Keeps(zs[i], TimestampKeyOf)
    ensures ApplyAll(Defaults(logger), xs + [TimestampKey(first)] + ys + [TimestampKey(last)] + zs).timestampKey == last
  {
    SetThenKept(Defaults(logger), xs + [TimestampKey(first)] + ys, TimestampKey(last), zs, TimestampKeyOf, last);
  }

  /** The same for the file key. */
  lemma LaterFileKeyWins(logger: LoggerRef, xs: seq<AdapterOption>, first: string, ys: seq<AdapterOption>,
                         last: string, zs: seq<AdapterOption>)
    requires forall i :: 0 <= i < |zs| ==> Keeps(zs[i], FileKeyOf)
    ensures ApplyAll(Defaults(logger), xs + [FileKey(first)] + ys + [FileKey(last)] + zs).fileKey == last
  {
    SetThenKept(Defaults(logger), xs + [FileKey(first)] + ys, FileKey(last), zs, FileKeyOf, last);
  }

  /** The same for the message key. */
  lemma LaterMessageKeyWins(logger: LoggerRef, xs: seq<AdapterOption>, first: string, ys: seq<AdapterOption>,
                            last: string, zs: seq<AdapterOption>)
    requires forall i :: 0 <= i < |zs| ==> Keeps(zs[i], MessageKeyOf)
    ensures ApplyAll(Defaults(logger), xs + [MessageKey(first)] + ys + [MessageKey(last)] + zs).messageKey == last
  {
    SetThenKept(Defaults(logger), xs + [MessageKey(first)] + ys, MessageKey(last), zs, MessageKeyOf, last);
  }

  /** Of two `Prefix` options the later one decides both prefix and join,
      whatever follows that leaves them alone. */
  lemma LaterPrefixWins(logger: LoggerRef, xs: seq<AdapterOption>, p1: string, j1: bool, ys: seq<AdapterOption>,
                        p2: string, j2: bool, zs: seq<AdapterOption>)
    requires forall i :: 0 <= i < |zs| ==> Keeps(zs[i], PrefixOf)
    ensures var a := ApplyAll(Defaults(logger), xs + [Prefix(p1, j1)] + ys + [Prefix(p2, j2)] + zs);
      a.prefix == p2 && a.joinPrefixToMsg == j2
  {
    SetThenKept(Defaults(logger), xs + [Prefix(p1, j1)] + ys, Prefix(p2, j2), zs, PrefixOf, (p2, j2));
  }

  /** Of two `StdlibRegexp` options with non-nil regexps the later one
      decides the regexp, whatever follows that leaves it alone. */
  lemma LaterRegexpWins(logger: LoggerRef, xs: seq<AdapterOption>, r1: Regexp, ys: seq<AdapterOption>,
                        r2: Regexp, zs: seq<AdapterOption>)
    requires forall i :: 0 <= i < |zs| ==> Keeps(zs[i], RegexpOf)
    ensures ApplyAll(Defaults(logger), xs + [StdlibRegexp(Some(r1))] + ys + [StdlibRegexp(Some(r2))] + zs).logRegexp == r2
  {
    SetThenKept(Defaults(logger), xs + [StdlibRegexp(Some(r1))] + ys, StdlibRegexp(Some(r2)), zs, RegexpOf, r2);
  }

  /** `NewStdlibAdapter(l, TimestampKey("a"), TimestampKey("b"), Prefix("x", true))`
      uses the key "b". */
  lemma TimestampKeyThenPrefix(logger: LoggerRef)
    ensures ApplyAll(Defaults(logger), [TimestampKey("a"), TimestampKey("b"), Prefix("x", true)]).timestampKey == "b"
  {
    PrefixKeeps("x", true);
    LaterTimestampKeyWins(logger, [], "a", [], "b", [Prefix("x", true)]);
    assert [] + [TimestampKey("a")] + [] + [TimestampKey("b")] + [Prefix("x", true)]
      == [TimestampKey("a"), TimestampKey("b"), Prefix("x", true)];
  }

  /** A nil-regexp option can be dropped from any option list. */
  lemma NilRegexpIsNoOp(a: StdlibAdapter, xs: seq<AdapterOption>, ys: seq<AdapterOption>)
    ensures ApplyAll(a, xs + [StdlibRegexp(None)] + ys) == ApplyAll(a, xs + ys)
  {
    var o := StdlibRegexp(None);
    ApplyAllAppend(a, xs + [o], ys);
    LastOptionApplied(a, xs, o);
    ApplyAllAppend(a, xs, ys);
  }

  /** `handlePrefix`: strips the configured prefix from the raw line. */
  function HandlePrefix(a: StdlibAdapter, p: string): (r: string)
    ensures a.prefix == "" ==> r == p
    ensures a.prefix <= p ==> p == a.prefix + r
    ensures !(a.prefix <= p) ==> r == p
    ensures |r| == if a.prefix <= p then |p| - |a.prefix| else |p|
  {
    if a.prefix != "" then TrimPrefix(p, a.prefix) else p
  }

  /** `handleMessagePrefix`: strips one leading prefix from the message and,
      when the join flag is set, puts the prefix back in front, so that a
      joined message always starts with exactly one added prefix. */
  function HandleMessagePrefix(a: StdlibAdapter, msg: string): (r: string)
    ensures a.prefix == "" ==> r == msg
    ensures !a.joinPrefixToMsg && a.prefix <= msg ==> msg == a.prefix + r
    ensures !a.joinPrefixToMsg && !(a.prefix <= msg) ==> r == msg
    ensures a.joinPrefixToMsg ==> r == a.prefix + TrimPrefix(msg, a.prefix)
  {
    if a.prefix == "" then msg
    else
      var stripped := TrimPrefix(msg, a.prefix);
      if a.joinPrefixToMsg then a.prefix + stripped else stripped
  }

  /** A joined message starts with the prefix, and joining is idempotent:
      a message that already carries the prefix comes out unchanged. */
  lemma JoinedMessageStartsWithPrefix(a: StdlibAdapter, msg: string)
    requires a.joinPrefixToMsg
    ensures a.prefix <= HandleMessagePrefix(a, msg)
    ensures a.prefix <= msg ==> HandleMessagePrefix(a, msg) == msg
    ensures HandleMessagePrefix(a, HandleMessagePrefix(a, msg)) == HandleMessagePrefix(a, msg)
  {
    var r := HandleMessagePrefix(a, msg);
    assert a.prefix <= r;
    assert TrimPrefix(r, a.prefix) == TrimPrefix(msg, a.prefix);
  }

  /** The captures of `find`, trimmed of trailing newlines, under their
      group names; a later group of the same name overwrites an earlier
      one. Nothing on a failed match. */
  function SubexpMap(names: seq<string>, m: seq<string>): map<string, string> {
    if |m| < |names| then map[] else Collected(names, m, |names|)
  }

  /** `subexps` in terms of its inputs: on a failed match (fewer captures
      than groups) nothing; otherwise every group name is a key, mapped to
      the trimmed capture of the last group of that name. */
  lemma SubexpMapSpec(names: seq<string>, m: seq<string>)
    ensures |m| < |names| ==> SubexpMap(names, m) == map[]
    ensures |m| >= |names| ==> SubexpMap(names, m).Keys == set i | 0 <= i < |names| :: names[i]
    ensures |m| >= |names| ==> forall i :: 0 <= i < |names| && LastOccurrence(names, i, |names|) ==>
      SubexpMap(names, m)[names[i]] == TrimRightNewlines(m[i])
    ensures forall name :: name in SubexpMap(names, m) ==> !EndsWithNewline(SubexpMap(names, m)[name])
  {
    if |m| >= |names| {
      CollectedSpec(names, m, |names|);
    }
  }

  /** No group after `i`, among the first `k`, shares `names[i]`. */
  predicate LastOccurrence(names: seq<string>, i: nat, k: nat)
    requires i < k <= |names|
  {
    forall j :: i < j < k ==> names[j] != names[i]
  }

  /** The map after the first `k` names of the loop in `subexps`. */
  function Collected(names: seq<string>, m: seq<string>, k: nat): map<string, string>
    requires k <= |names| <= |m|
    decreases k
  {
    if k == 0 then map[] else Collected(names, m, k - 1)[names[k - 1] := TrimRightNewlines(m[k - 1])]
  }

  /** After the first `k` names: exactly those names are keys, a name's
      value is the trimmed capture of its last group, and no value ends in
      a newline. */
  lemma CollectedSpec(names: seq<string>, m: seq<string>, k: nat)
    requires k <= |names| <= |m|
    ensures Collected(names, m, k).Keys == set i | 0 <= i < k :: names[i]
    ensures forall i :: 0 <= i < k && LastOccurrence(names, i, k) ==>
      Collected(names, m, k)[names[i]] == TrimRightNewlines(m[i])
    ensures forall name :: name in Collected(names, m, k) ==> !EndsWithNewline(Collected(names, m, k)[name])
  {
    CollectedKeys(names, m, k);
    CollectedLastWins(names, m, k);
    CollectedTrimmed(names, m, k);
  }

  lemma {:induction false} CollectedKeys(names: seq<string>, m: seq<string>, k: nat)
    requires k <= |names| <= |m|
    ensures Collected(names, m, k).Keys == set i | 0 <= i < k :: names[i]
    decreases k
  {
    if k > 0 {
      CollectedKeys(names, m, k - 1);
      var before := set i | 0 <= i < k - 1 :: names[i];
      var after := set i | 0 <= i < k :: names[i];
      assert Collected(names, m, k).Keys == before + {names[k - 1]};
      assert after == before + {names[k - 1]} by {
        forall x | x in after ensures x in before + {names[k - 1]} {
          var i :| 0 <= i < k && names[i] == x;
          if i < k - 1 { assert x in before; }
        }
        forall x | x in before + {names[k - 1]} ensures x in after {
          if x in before {
            var i :| 0 <= i < k - 1 && names[i] == x;
            assert 0 <= i < k;
          } else {
            assert 0 <= k - 1 < k;
          }
        }
      }
    }
  }

  lemma {:induction false} CollectedLastWins(names: seq<string>, m: seq<string>, k: nat)
    requires k <= |names| <= |m|
    ensures forall i :: 0 <= i < k && LastOccurrence(names, i, k) ==>
      names[i] in Collected(names, m, k) && Collected(names, m, k)[names[i]] == TrimRightNewlines(m[i])
    decreases k
  {
    if k > 0 {
      CollectedLastWins(names, m, k - 1);
      var r := Collected(names, m, k);
      forall i | 0 <= i < k && LastOccurrence(names, i, k)
        ensures names[i] in r && r[names[i]] == TrimRightNewlines(m[i])
      {
        if i < k - 1 {
          assert names[k - 1] != names[i];
          assert LastOccurrence(names, i, k - 1);
        }
      }
    }
  }

  lemma {:induction false} CollectedTrimmed(names: seq<string>, m: seq<string>, k: nat)
    requires k <= |names| <= |m|
    ensures forall name :: name in Collected(names, m, k) ==> !EndsWithNewline(Collected(names, m, k)[name])
    decreases k
  {
    if k > 0 {
      CollectedTrimmed(names, m, k - 1);
    }
  }

  /** `subexps`: runs the engine on the line and maps every group name to
      its capture with all trailing newlines removed; an empty map when the
      match fails. */
  method Subexps(a: StdlibAdapter, line: string, find: Engine) returns (result: map<string, string>)
    ensures result == SubexpMap(SubexpNames(a.logRegexp), find(a.logRegexp, line))
  {
    var m := find(a.logRegexp, line);
    var n := SubexpNames(a.logRegexp);
    if |m| < |n| {
      return map[];
    }
    result := map[];
    var i := 0;
    while i < |n|
      invariant 0 <= i <= |n|
      invariant result == Collected(n, m, i)
    {
      result := result[n[i] := TrimRightNewlines(m[i])];
      i := i + 1;
    }
  }

  /** A group's value, "" when the group is missing: `v, ok := result[k];
      ok && v != ""` treats a missing group and an empty capture alike. */
  function Field(result: map<string, string>, name: string): string {
    if name in result then result[name] else ""
  }

  /** The timestamp: date and time joined by one space when both are
      present, whichever is present otherwise, "" when neither is. */
  function TimestampOf(result: map<string, string>): (ts: string)
    ensures ts == "" <==> Field(result, "date") == "" && Field(result, "time") == ""
    ensures Field(result, "date") != "" && Field(result, "time") != "" ==>
      ts == Field(result, "date") + " " + Field(result, "time")
    ensures Field(result, "date") == "" || Field(result, "time") == "" ==>
      ts == Field(result, "date") + Field(result, "time")
  {
    var date, time := Field(result, "date"), Field(result, "time");
    if date == "" then time
    else if time == "" then date
    else date + " " + time
  }

  /** A key/value pair, or nothing. */
  function PairIf(present: bool, key: string, value: string): seq<string> {
    if present then [key, value] else []
  }

  /** The event handed to the wrapped logger: ts, then file, then msg, each
      only when present; msg whenever the group exists, even if empty. */
  function EventKeyvals(a: StdlibAdapter, result: map<string, string>): seq<string> {
    PairIf(TimestampOf(result) != "", a.timestampKey, TimestampOf(result))
    + PairIf(Field(result, "file") != "", a.fileKey, Field(result, "file"))
    + PairIf("msg" in result, a.messageKey, HandleMessagePrefix(a, Field(result, "msg")))
  }

  /** `StdlibAdapter.Write`: strips the prefix, parses the line, hands the
      event to the wrapped logger, and reports the length of the line after
      prefix stripping, or 0 and the logger's error. */
  method Write(a: StdlibAdapter, p: string, find: Engine, loggerLog: (LoggerRef, seq<string>) -> Option<string>)
    returns (keyvals: seq<string>, n: nat, err: Option<string>)
    ensures keyvals == EventKeyvals(a, SubexpMap(SubexpNames(a.logRegexp), find(a.logRegexp, HandlePrefix(a, p))))
    ensures err == loggerLog(a.logger, keyvals)
    ensures n == if err.Some? then 0 else |HandlePrefix(a, p)|
  {
    var line := HandlePrefix(a, p);
    var result := Subexps(a, line, find);
    ghost var ts, file := TimestampOf(result), Field(result, "file");
    keyvals := [];
    var timestamp := "";
    if "date" in result && result["date"] != "" {
      timestamp := result["date"];
    }
    if "time" in result && result["time"] != "" {
      if timestamp != "" {
        timestamp := timestamp + " ";
      }
      timestamp := timestamp + result["time"];
    }
    assert timestamp == ts;
    if timestamp != "" {
      keyvals := keyvals + [a.timestampKey, timestamp];
    }
    assert keyvals == PairIf(ts != "", a.timestampKey, ts);
    ghost var withTs := keyvals;
    if "file" in result && result["file"] != "" {
      keyvals := keyvals + [a.fileKey, result["file"]];
    }
    assert keyvals == withTs + PairIf(file != "", a.fileKey, file);
    ghost var withFile := keyvals;
    if "msg" in result {
      var msg := HandleMessagePrefix(a, result["msg"]);
      keyvals := keyvals + [a.messageKey, msg];
    }
    assert keyvals == withFile + PairIf("msg" in result, a.messageKey, HandleMessagePrefix(a, Field(result, "msg")));
    err := loggerLog(a.logger, keyvals);
    if err.Some? {
      return keyvals, 0, err;
    }
    n := |line|;
  }

  /** The shape of every event: an even number of elements, the timestamp
      pair first if the timestamp is non-empty, then the file pair if the
      file is non-empty, then the message pair as the last pair if and only
      if the msg group exists. */
  lemma EventKeyvalsShape(a: StdlibAdapter, result: map<string, string>)
    ensures var kv := EventKeyvals(a, result);
      var ts, file := TimestampOf(result), Field(result, "file");
      var t := if ts != "" then 2 else 0;
      var f := if file != "" then 2 else 0;
      && |kv| % 2 == 0
      && |kv| == t + f + (if "msg" in result then 2 else 0)
      && (ts != "" ==> kv[..2] == [a.timestampKey, ts])
      && (file != "" ==> kv[t..t + 2] == [a.fileKey, file])
      && ("msg" in result ==> kv[t + f..] == [a.messageKey, HandleMessagePrefix(a, result["msg"])])
  {
  }

  /** A failed match gives an empty event. */
  lemma NoMatchEmptyEvent(a: StdlibAdapter, names: seq<string>, m: seq<string>)
    requires |m| < |names|
    ensures EventKeyvals(a, SubexpMap(names, m)) == []
  {
    assert SubexpMap(names, m) == map[];
    assert TimestampOf(map[]) == "";
  }

  /** The groups of the full regexp: each named group maps to its own
      trimmed capture. */
  lemma FullRegexpGroups(m: seq<string>)
    requires |m| >= 7
    ensures var r := SubexpMap(SubexpNames(StdlibRegexpFull), m);
      && r.Keys == {"", "date", "time", "file", "msg"}
      && r["date"] == TrimRightNewlines(m[1])
      && r["time"] == TrimRightNewlines(m[2])
      && r["file"] == TrimRightNewlines(m[4])
      && r["msg"] == TrimRightNewlines(m[6])
  {
    var names := SubexpNames(StdlibRegexpFull);
    assert LastOccurrence(names, 1, 7) && LastOccurrence(names, 2, 7);
    assert LastOccurrence(names, 4, 7) && LastOccurrence(names, 6, 7);
    var keys := set i | 0 <= i < 7 :: names[i];
    assert names[0] == "" && names[1] == "date" && names[2] == "time" && names[4] == "file" && names[6] == "msg";
    assert keys == {"", "date", "time", "file", "msg"};
  }

  /** The groups of the default regexp: as the full one, without file. */
  lemma DefaultRegexpGroups(m: seq<string>)
    requires |m| >= 6
    ensures var r := SubexpMap(SubexpNames(StdlibRegexpDefault), m);
      && r.Keys == {"", "date", "time", "msg"}
      && r["date"] == TrimRightNewlines(m[1])
      && r["time"] == TrimRightNewlines(m[2])
      && r["msg"] == TrimRightNewlines(m[5])
  {
    var names := SubexpNames(StdlibRegexpDefault);
    assert LastOccurrence(names, 1, 6) && LastOccurrence(names, 2, 6) && LastOccurrence(names, 5, 6);
    var keys := set i | 0 <= i < 6 :: names[i];
    assert names[0] == "" && names[1] == "date" && names[2] == "time" && names[5] == "msg";
    assert keys == {"", "date", "time", "msg"};
  }

  /** With the full regexp, whatever captures the engine returns, a match
      gives an event that ends with the message pair: the msg group always
      exists on a match. */
  lemma FullRegexpEventHasMessage(a: StdlibAdapter, m: seq<string>)
    requires |m| >= 7
    ensures var kv := EventKeyvals(a, SubexpMap(SubexpNames(StdlibRegexpFull), m));
      |kv| >= 2 && kv[|kv| - 2..] == [a.messageKey, HandleMessagePrefix(a, TrimRightNewlines(m[6]))]
  {
    FullRegexpGroups(m);
    EventKeyvalsShape(a, SubexpMap(SubexpNames(StdlibRegexpFull), m));
  }

  /** With the default regexp an event never has a caller pair: what the
      full regexp would put under the file key stays in the message. */
  lemma DefaultRegexpHasNoCaller(a: StdlibAdapter, m: seq<string>)
    requires |m| >= 6
    ensures var result := SubexpMap(SubexpNames(StdlibRegexpDefault), m);
      EventKeyvals(a, result) ==
        PairIf(TimestampOf(result) != "", a.timestampKey, TimestampOf(result))
        + [a.messageKey, HandleMessagePrefix(a, TrimRightNewlines(m[5]))]
  {
    DefaultRegexpGroups(m);
  }

  /** The adapter every line of the adapter's table of examples is run
      with: a regexp option and a prefix option over the defaults. */
  lemma ExampleAdapter(logger: LoggerRef, re: Regexp, prefix: string, join: bool)
    ensures ApplyAll(Defaults(logger), [StdlibRegexp(Some(re)), Prefix(prefix, join)])
      == StdlibAdapter(logger, "ts", "caller", "msg", prefix, join, re)
  {
    var opts := [StdlibRegexp(Some(re)), Prefix(prefix, join)];
    var d := Defaults(logger);
    var once := opts[0](d);
    assert once == d.(logRegexp := re);
    assert opts[1..] == [Prefix(prefix, join)] && opts[1..][1..] == [];
    assert ApplyAll(d, opts) == ApplyAll(once, opts[1..]);
    assert ApplyAll(once, opts[1..]) == ApplyAll(opts[1](once), []);
  }

  /** The line "2009/01/23 01:23:23.123123 /a/b/c/d.go:23: hello" with the
      captures the full regexp gives it: timestamp, caller, message. */
  lemma DatetimeCallerLine(logger: LoggerRef)
    ensures var m := ["2009/01/23 01:23:23.123123 /a/b/c/d.go:23: hello", "2009/01/23", "01:23:23.123123",
                      ".123123", "/a/b/c/d.go:23", ": ", "hello"];
      EventKeyvals(Defaults(logger), SubexpMap(SubexpNames(StdlibRegexpFull), m))
        == ["ts", "2009/01/23 01:23:23.123123", "caller", "/a/b/c/d.go:23", "msg", "hello"]
  {
    var m := ["2009/01/23 01:23:23.123123 /a/b/c/d.go:23: hello", "2009/01/23", "01:23:23.123123",
              ".123123", "/a/b/c/d.go:23", ": ", "hello"];
    FullRegexpFields(m, "2009/01/23", "01:23:23.123123", "/a/b/c/d.go:23", "hello");
    var r := SubexpMap(SubexpNames(StdlibRegexpFull), m);
    assert TimestampOf(r) == "2009/01/23 01:23:23.123123" by {
      assert "2009/01/23" + " " + "01:23:23.123123" == "2009/01/23 01:23:23.123123";
    }
    assert HandleMessagePrefix(Defaults(logger), "hello") == "hello";
  }

  /** The fields a full-regexp match yields when its date, time, file and
      msg captures carry no trailing newline. */
  lemma FullRegexpFields(m: seq<string>, date: string, time: string, file: string, msg: string)
    requires |m| >= 7 && m[1] == date && m[2] == time && m[4] == file && m[6] == msg
    requires !EndsWithNewline(date) && !EndsWithNewline(time) && !EndsWithNewline(file) && !EndsWithNewline(msg)
    ensures var r := SubexpMap(SubexpNames(StdlibRegexpFull), m);
      "msg" in r && Field(r, "date") == date && Field(r, "time") == time
      && Field(r, "file") == file && Field(r, "msg") == msg
  {
    FullRegexpGroups(m);
    TrimRightNewlinesAppended(date, 0);
    TrimRightNewlinesAppended(time, 0);
    TrimRightNewlinesAppended(file, 0);
    TrimRightNewlinesAppended(msg, 0);
    assert date + Newlines(0) == date && time + Newlines(0) == time;
    assert file + Newlines(0) == file && msg + Newlines(0) == msg;
  }

  /** The line "/a/b/c/d.go:23: some prefix hello" with prefix "some prefix ":
      the prefix is taken off the message, and put back when joining. */
  lemma CallerThenPrefixLine(logger: LoggerRef, join: bool)
    ensures var a := StdlibAdapter(logger, "ts", "caller", "msg", "some prefix ", join, StdlibRegexpFull);
      var m := ["/a/b/c/d.go:23: some prefix hello", "", "", "", "/a/b/c/d.go:23", ": ", "some prefix hello"];
      EventKeyvals(a, SubexpMap(SubexpNames(StdlibRegexpFull), m))
        == ["caller", "/a/b/c/d.go:23", "msg", if join then "some prefix hello" else "hello"]
  {
    var a := StdlibAdapter(logger, "ts", "caller", "msg", "some prefix ", join, StdlibRegexpFull);
    var m := ["/a/b/c/d.go:23: some prefix hello", "", "", "", "/a/b/c/d.go:23", ": ", "some prefix hello"];
    FullRegexpGroups(m);
    var r := SubexpMap(SubexpNames(StdlibRegexpFull), m);
    assert Field(r, "date") == "" && Field(r, "time") == "";
    assert Field(r, "file") == "/a/b/c/d.go:23" by { assert !EndsWithNewline(m[4]); }
    assert Field(r, "msg") == "some prefix hello" by { assert !EndsWithNewline(m[6]); }
    assert TimestampOf(r) == "";
    assert "some prefix " <= "some prefix hello";
    assert TrimPrefix("some prefix hello", "some prefix ") == "hello";
  }
}
