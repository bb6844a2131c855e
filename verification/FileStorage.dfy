/** internal/blob/filesystem.go: one directory, any number of `Put`, `Open` and
    `Delete` calls at a time. A `Put` writes a temporary file chunk by chunk and
    publishes it with a hard link; it may fail, be cancelled or die anywhere. */
module FileStorage {
  import opened Common

  type Data = seq<byte>

  // -------------------------------------------------------------------- keys

  predicate KeyChar(c: char) {
    'a' <= c <= 'z' || 'A' <= c <= 'Z' || '0' <= c <= '9' || c == '-' || c == '_'
  }

  predicate ValidKey(key: string) { key != "" && forall i :: 0 <= i < |key| ==> KeyChar(key[i]) }

  function TrimSlashes(path: string): string {
    if path != "" && path[|path| - 1] == '/' then TrimSlashes(path[..|path| - 1]) else path
  }

  function AfterSlash(path: string): string {
    if path == "" || path[|path| - 1] == '/' then "" else AfterSlash(path[..|path| - 1]) + [path[|path| - 1]]
  }

  /** `filepath.Base` where the separator is a slash. */
  function Base(path: string): string {
    if path == "" then "." else if TrimSlashes(path) == "" then "/" else AfterSlash(TrimSlashes(path))
  }

  lemma {:induction false} AfterSlashOfKey(key: string)
    requires forall i :: 0 <= i < |key| ==> KeyChar(key[i])
    ensures AfterSlash(key) == key
  {
    if key != "" {
      AfterSlashOfKey(key[..|key| - 1]);
      assert key == key[..|key| - 1] + [key[|key| - 1]];
    }
  }

  /** The scan of `validKey`: the test of the base name rejects nothing that the scan accepts. */
  method CheckKey(key: string) returns (valid: bool)
    ensures valid <==> ValidKey(key)
  {
    if key == "" || Base(key) != key {
      if forall i :: 0 <= i < |key| ==> KeyChar(key[i]) { AfterSlashOfKey(key); }
      return false;
    }
    for i := 0 to |key|
      invariant forall k :: 0 <= k < i ==> KeyChar(key[k])
    {
      if !KeyChar(key[i]) { return false; }
    }
    return true;
  }

  const TEMP_PREFIX: string := ".upload-"

  /** No leftover of an upload can be opened, replaced or deleted under its name. */
  lemma TempNameRejected(suffix: string)
    ensures !ValidKey(TEMP_PREFIX + suffix)
  {
    assert (TEMP_PREFIX + suffix)[0] == '.';
  }

  // ------------------------------------------------------------------- state

  datatype PutPc = Copying | Copied | Leaving(size: Option<nat>) | Returned(size: Option<nat>) | Dead

  /** `size` is what `Put` returns; `None` is an error. */
  datatype Put = Put(key: string, source: Data, temp: string, pc: PutPc)

  /** Names refer to files as hard links do, and a file goes by the `Put` that made
      it. A file outlives its names for those who have it open. */
  datatype State = State(names: map<string, nat>, files: map<nat, Data>, puts: map<nat, Put>)

  datatype Step =
    | Begin(p: nat, key: string, source: Data, suffix: string)
    | Write(p: nat, count: nat)
    | FinishCopy(p: nat)
    | Fail(p: nat)
    | Link(p: nat)
    | RemoveTemp(p: nat, works: bool)
    | Die(p: nat)
    | Delete(key: string)

  function Init(): State { State(map[], map[], map[]) }

  predicate AtPc(s: State, p: nat, pc: PutPc) { p in s.puts && p in s.files && s.puts[p].pc == pc }

  predicate Enabled(s: State, step: Step) {
    match step
    case Begin(p, key, _, suffix) => p !in s.puts && ValidKey(key) && TEMP_PREFIX + suffix !in s.names
    case Write(p, count) => AtPc(s, p, Copying) && |s.files[p]| + count <= |s.puts[p].source|
    case FinishCopy(p) => AtPc(s, p, Copying) && |s.files[p]| == |s.puts[p].source|
    case Fail(p) => AtPc(s, p, Copying) || AtPc(s, p, Copied)
    case Link(p) => AtPc(s, p, Copied)
    case RemoveTemp(p, _) => p in s.puts && s.puts[p].pc.Leaving?
    case Die(p) => p in s.puts && !s.puts[p].pc.Returned?
    case Delete(key) => ValidKey(key)
  }

  function WithPc(s: State, p: nat, pc: PutPc): State
    requires p in s.puts
  {
    s.(puts := s.puts[p := s.puts[p].(pc := pc)])
  }

  /** The next chunk of the source. */
  function AfterWrite(s: State, p: nat, count: nat): State
    requires AtPc(s, p, Copying) && |s.files[p]| + count <= |s.puts[p].source|
  {
    var from := |s.files[p]|;
    s.(files := s.files[p := s.files[p] + s.puts[p].source[from..from + count]])
  }

  /** A hard link never replaces a name. */
  function AfterLink(s: State, p: nat): State
    requires p in s.puts
  {
    var put := s.puts[p];
    s.(names := if put.key in s.names then s.names else s.names[put.key := p],
       puts := s.puts[p := put.(pc := Leaving(if put.key in s.names then None else Some(|put.source|)))])
  }

  function AfterRemoveTemp(s: State, p: nat, works: bool): State
    requires p in s.puts && s.puts[p].pc.Leaving?
  {
    s.(names := if works then s.names - {s.puts[p].temp} else s.names,
       puts := s.puts[p := s.puts[p].(pc := Returned(s.puts[p].pc.size))])
  }

  function AfterBegin(s: State, p: nat, key: string, source: Data, suffix: string): State {
    s.(names := s.names[TEMP_PREFIX + suffix := p], files := s.files[p := []],
       puts := s.puts[p := Put(key, source, TEMP_PREFIX + suffix, Copying)])
  }

  function Next(s: State, step: Step): State
    requires Enabled(s, step)
  {
    match step
    case Begin(p, key, source, suffix) => AfterBegin(s, p, key, source, suffix)
    case Write(p, count) => AfterWrite(s, p, count)
    case FinishCopy(p) => WithPc(s, p, Copied)
    case Fail(p) => WithPc(s, p, Leaving(None))
    case Link(p) => AfterLink(s, p)
    case RemoveTemp(p, works) => AfterRemoveTemp(s, p, works)
    case Die(p) => WithPc(s, p, Dead)
    case Delete(key) => s.(names := s.names - {key})
  }

  function Run(s: State, steps: seq<Step>): Option<State> {
    if steps == [] then Some(s)
    else match Run(s, steps[..|steps| - 1])
         case None => None
         case Some(t) => if Enabled(t, steps[|steps| - 1]) then Some(Next(t, steps[|steps| - 1])) else None
  }

  // --------------------------------------------------------------- invariant

  /** A file is a prefix of its source, and all of it once the copy is finished. */
  predicate PutOk(files: map<nat, Data>, p: nat, put: Put) {
    && p in files && files[p] <= put.source && ValidKey(put.key) && !ValidKey(put.temp)
    && (put.pc.Copied? ==> files[p] == put.source)
    && ((put.pc.Leaving? || put.pc.Returned?) && put.pc.size.Some? ==>
      files[p] == put.source && put.pc.size.value == |put.source|)
  }

  predicate MayBePublished(pc: PutPc) {
    match pc
    case Copying => false
    case Copied => false
    case Leaving(size) => size.Some?
    case Returned(size) => size.Some?
    case Dead => true
  }

  predicate NameOk(files: map<nat, Data>, puts: map<nat, Put>, name: string, p: nat) {
    && p in puts && p in files
    && if ValidKey(name) then puts[p].key == name && files[p] == puts[p].source && MayBePublished(puts[p].pc)
       else puts[p].temp == name
  }

  ghost predicate Inv(s: State) {
    && (forall p :: p in s.puts ==> PutOk(s.files, p, s.puts[p]))
    && (forall name :: name in s.names ==> NameOk(s.files, s.puts, name, s.names[name]))
  }

  lemma BeginKeeps(s: State, p: nat, key: string, source: Data, suffix: string)
    requires Inv(s) && p !in s.puts && ValidKey(key) && TEMP_PREFIX + suffix !in s.names
    ensures Inv(AfterBegin(s, p, key, source, suffix))
  {
    TempNameRejected(suffix);
    var t := AfterBegin(s, p, key, source, suffix);
    forall name | name in t.names ensures NameOk(t.files, t.puts, name, t.names[name]) {
      if name in s.names { assert NameOk(s.files, s.puts, name, s.names[name]); }
    }
  }

  lemma WriteKeeps(s: State, p: nat, count: nat)
    requires Inv(s) && AtPc(s, p, Copying) && |s.files[p]| + count <= |s.puts[p].source|
    ensures Inv(AfterWrite(s, p, count))
  {
    var t, put := AfterWrite(s, p, count), s.puts[p];
    assert PutOk(s.files, p, put);
    var from := |s.files[p]|;
    assert put.source[..from + count] == put.source[..from] + put.source[from..from + count];
    assert t.files[p] <= put.source;
    forall name | name in t.names ensures NameOk(t.files, t.puts, name, t.names[name]) {
      assert NameOk(s.files, s.puts, name, s.names[name]);
    }
  }

  /** Any change of pc that publishes nothing and takes nothing back. */
  lemma PcKeeps(s: State, p: nat, pc: PutPc)
    requires Inv(s) && p in s.puts && PutOk(s.files, p, s.puts[p].(pc := pc))
    requires MayBePublished(s.puts[p].pc) ==> MayBePublished(pc)
    ensures Inv(WithPc(s, p, pc))
  {
    var t := WithPc(s, p, pc);
    forall name | name in t.names ensures NameOk(t.files, t.puts, name, t.names[name]) {
      assert NameOk(s.files, s.puts, name, s.names[name]);
    }
  }

  lemma LinkKeeps(s: State, p: nat)
    requires Inv(s) && AtPc(s, p, Copied)
    ensures Inv(AfterLink(s, p))
  {
    var t, put := AfterLink(s, p), s.puts[p];
    assert PutOk(s.files, p, put);
    forall name | name in t.names ensures NameOk(t.files, t.puts, name, t.names[name]) {
      if name in s.names { assert NameOk(s.files, s.puts, name, s.names[name]); }
    }
  }

  lemma RemoveTempKeeps(s: State, p: nat, works: bool)
    requires Inv(s) && p in s.puts && s.puts[p].pc.Leaving?
    ensures Inv(AfterRemoveTemp(s, p, works))
  {
    var t := AfterRemoveTemp(s, p, works);
    assert PutOk(s.files, p, s.puts[p]);
    forall name | name in t.names ensures NameOk(t.files, t.puts, name, t.names[name]) {
      assert NameOk(s.files, s.puts, name, s.names[name]);
    }
  }

  lemma NextKeeps(s: State, step: Step)
    requires Inv(s) && Enabled(s, step)
    ensures Inv(Next(s, step))
  {
    match step
    case Begin(p, key, source, suffix) => BeginKeeps(s, p, key, source, suffix);
    case Write(p, count) => WriteKeeps(s, p, count);
    case FinishCopy(p) => PcKeeps(s, p, Copied);
    case Fail(p) => PcKeeps(s, p, Leaving(None));
    case Link(p) => LinkKeeps(s, p);
    case RemoveTemp(p, works) => RemoveTempKeeps(s, p, works);
    case Die(p) => PcKeeps(s, p, Dead);
    case Delete(_) =>
  }

  lemma {:induction false} RunKeeps(s: State, steps: seq<Step>)
    requires Inv(s)
    ensures Run(s, steps).Some? ==> Inv(Run(s, steps).value)
  {
    if steps != [] {
      RunKeeps(s, steps[..|steps| - 1]);
      if Run(s, steps).Some? { NextKeeps(Run(s, steps[..|steps| - 1]).value, steps[|steps| - 1]); }
    }
  }

  // ---------------------------------------------------------------- theorems

  /** Atomic publication: after any run, what is stored under a valid key is the
      complete source of one `Put` of that key which did not fail. */
  lemma StoredIsWhole(steps: seq<Step>, s: State, key: string)
    requires Run(Init(), steps) == Some(s) && ValidKey(key) && key in s.names
    ensures var p := s.names[key];
      && p in s.puts && p in s.files && s.puts[p].key == key && s.files[p] == s.puts[p].source
      && (s.puts[p].pc.Returned? ==> s.puts[p].pc.size == Some(|s.files[p]|))
  {
    RunKeeps(Init(), steps);
    assert NameOk(s.files, s.puts, key, s.names[key]) && PutOk(s.files, s.names[key], s.puts[s.names[key]]);
  }

  /** A `Put` that returned an error has published nothing, under any key. */
  lemma FailedPutIsNowhere(steps: seq<Step>, s: State, p: nat, name: string)
    requires Run(Init(), steps) == Some(s) && AtPc(s, p, Returned(None)) && name in s.names && s.names[name] == p
    ensures !ValidKey(name)
  {
    RunKeeps(Init(), steps);
    assert NameOk(s.files, s.puts, name, p);
  }

  predicate Touches(step: Step, key: string) { step == Delete(key) }

  /** No step but its own `Delete` takes a key away or gives it other contents. */
  lemma NextKeepsKey(s: State, step: Step, key: string)
    requires Inv(s) && Enabled(s, step) && ValidKey(key) && key in s.names && !Touches(step, key)
    ensures var t := Next(s, step); key in t.names && t.names[key] == s.names[key]
  {
    assert NameOk(s.files, s.puts, key, s.names[key]);
    if step.RemoveTemp? { assert PutOk(s.files, step.p, s.puts[step.p]); }
    if step.Begin? { TempNameRejected(step.suffix); }
  }

  /** Its copy is over, in success, failure or death. */
  predicate Finished(s: State, p: nat) { p in s.puts && p in s.files && MayBePublished(s.puts[p].pc) }

  /** A complete file never changes again, also for a reader that opened it before a `Delete`. */
  lemma FinishedStays(s: State, step: Step, p: nat)
    requires Inv(s) && Enabled(s, step) && Finished(s, p)
    ensures var t := Next(s, step); Finished(t, p) && t.files[p] == s.files[p]
  {
  }

  /** From a state in which a key is stored: whatever runs, its file stays as it is,
      and unless the key is deleted it keeps that file. */
  lemma {:induction false} StoredStays(s: State, rest: seq<Step>, t: State, key: string)
    requires Inv(s) && ValidKey(key) && key in s.names && Run(s, rest) == Some(t)
    ensures var p := s.names[key]; Finished(s, p) && Finished(t, p) && t.files[p] == s.files[p]
    ensures (forall i :: 0 <= i < |rest| ==> !Touches(rest[i], key)) ==> key in t.names && t.names[key] == s.names[key]
  {
    assert NameOk(s.files, s.puts, key, s.names[key]);
    if rest != [] {
      var most := rest[..|rest| - 1];
      var u := Run(s, most).value;
      StoredStays(s, most, u, key);
      RunKeeps(s, most);
      FinishedStays(u, rest[|rest| - 1], s.names[key]);
      if forall i :: 0 <= i < |rest| ==> !Touches(rest[i], key) {
        assert forall i :: 0 <= i < |most| ==> !Touches(most[i], key) by {
          assert forall i :: 0 <= i < |most| ==> most[i] == rest[i];
        }
        NextKeepsKey(u, rest[|rest| - 1], key);
      }
    }
  }

  /** The link that makes a `Put` succeed stores its source, and a second `Put` of the
      key then fails, until the key is deleted. */
  lemma SecondPutFails(s: State, p: nat, rest: seq<Step>, t: State, q: nat)
    requires Inv(s) && AtPc(s, p, Copied) && s.puts[p].key !in s.names
    requires Run(AfterLink(s, p), rest) == Some(t) && forall i :: 0 <= i < |rest| ==> !Touches(rest[i], s.puts[p].key)
    requires AtPc(t, q, Copied) && t.puts[q].key == s.puts[p].key
    ensures AfterLink(t, q).puts[q].pc == Leaving(None) && AfterLink(t, q).names == t.names
    ensures t.names[s.puts[p].key] == p && p in t.files && t.files[p] == s.puts[p].source
  {
    var u := AfterLink(s, p);
    assert PutOk(s.files, p, s.puts[p]);
    LinkKeeps(s, p);
    StoredStays(u, rest, t, s.puts[p].key);
  }

  /** A name outlives its `Put` only as the key, or where the removal of the temporary
      name failed. */
  predicate Tidy(s: State, steps: seq<Step>, name: string) {
    name in s.names && s.names[name] in s.puts && s.puts[s.names[name]].pc.Returned? && !ValidKey(name) ==>
      RemoveTemp(s.names[name], false) in steps
  }

  lemma NextTidy(s: State, steps: seq<Step>, step: Step, name: string)
    requires Inv(s) && Enabled(s, step) && Tidy(s, steps, name)
    ensures Tidy(Next(s, step), steps + [step], name)
  {
    if name in s.names { assert NameOk(s.files, s.puts, name, s.names[name]); }
  }

  /** A `Put` that has returned, with success or not, left its temporary file behind only
      if removing it failed. */
  lemma {:induction false} NothingLeftBehind(steps: seq<Step>, s: State, name: string)
    requires Run(Init(), steps) == Some(s)
    ensures Tidy(s, steps, name)
  {
    if steps != [] {
      var most, step := steps[..|steps| - 1], steps[|steps| - 1];
      var t := Run(Init(), most).value;
      NothingLeftBehind(most, t, name);
      RunKeeps(Init(), most);
      NextTidy(t, most, step, name);
      assert steps == most + [step];
    }
  }
}
