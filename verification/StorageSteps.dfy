/** Why a blob operation is one step of the blob protocol: internal/blob/filesystem.go seen
    through valid keys. Of all the steps of a `Put`, only its link can be seen. */
module StorageSteps {
  import opened Common
  import opened FileStorage
  import Blobs = Outbox
  import Schedule = CleanupSchedule

  /** What `Open` can find. */
  function View(s: State): map<string, Data> {
    map key | key in s.names && ValidKey(key) && s.names[key] in s.files :: s.files[s.names[key]]
  }

  /** What a step does to it. */
  function Seen(s: State, step: Step): map<string, Data>
    requires Enabled(s, step)
  {
    match step
    case Link(p) => if s.puts[p].key in s.names then View(s) else View(s)[s.puts[p].key := s.puts[p].source]
    case Delete(key) => View(s) - {key}
    case _ => View(s)
  }

  lemma SameView(s: State, t: State)
    requires forall name :: ValidKey(name) ==> (name in t.names <==> name in s.names)
    requires forall name :: ValidKey(name) && name in s.names ==>
      t.names[name] == s.names[name] && s.names[name] in s.files && s.names[name] in t.files
      && t.files[t.names[name]] == s.files[s.names[name]]
    ensures View(t) == View(s)
  {
  }

  lemma BeginSeen(s: State, p: nat, key: string, source: Data, suffix: string)
    requires Inv(s) && p !in s.puts && ValidKey(key) && TEMP_PREFIX + suffix !in s.names
    ensures View(AfterBegin(s, p, key, source, suffix)) == View(s)
  {
    var t := AfterBegin(s, p, key, source, suffix);
    TempNameRejected(suffix);
    forall name | ValidKey(name) && name in s.names
      ensures t.names[name] == s.names[name] && s.names[name] in s.files && s.names[name] in t.files
      ensures t.files[t.names[name]] == s.files[s.names[name]]
    {
      assert NameOk(s.files, s.puts, name, s.names[name]);
    }
    SameView(s, t);
  }

  lemma WriteSeen(s: State, p: nat, count: nat)
    requires Inv(s) && AtPc(s, p, Copying) && |s.files[p]| + count <= |s.puts[p].source|
    ensures View(AfterWrite(s, p, count)) == View(s)
  {
    var t := AfterWrite(s, p, count);
    forall name | ValidKey(name) && name in s.names
      ensures s.names[name] in s.files && t.files[t.names[name]] == s.files[s.names[name]]
    {
      assert NameOk(s.files, s.puts, name, s.names[name]);
    }
    SameView(s, t);
  }

  lemma LinkSeen(s: State, p: nat)
    requires Inv(s) && AtPc(s, p, Copied)
    ensures View(AfterLink(s, p)) == Seen(s, Link(p))
  {
    assert PutOk(s.files, p, s.puts[p]);
  }

  lemma RemoveTempSeen(s: State, p: nat, works: bool)
    requires Inv(s) && p in s.puts && s.puts[p].pc.Leaving?
    ensures View(AfterRemoveTemp(s, p, works)) == View(s)
  {
    assert PutOk(s.files, p, s.puts[p]);
  }

  /** In any interleaving, a link that succeeds adds a whole source, a `Delete` takes its
      key away, and nothing else can be seen. */
  lemma StepSeen(s: State, step: Step)
    requires Inv(s) && Enabled(s, step)
    ensures View(Next(s, step)) == Seen(s, step)
  {
    match step
    case Begin(p, key, source, suffix) => BeginSeen(s, p, key, source, suffix);
    case Write(p, count) => WriteSeen(s, p, count);
    case FinishCopy(_) =>
    case Fail(_) =>
    case Link(p) => LinkSeen(s, p);
    case RemoveTemp(p, works) => RemoveTempSeen(s, p, works);
    case Die(_) =>
    case Delete(_) =>
  }

  // ------------------------------------------------------------ one whole `Put`

  /** A step of `p`, after its beginning. */
  predicate OfPut(step: Step, p: nat) {
    match step
    case Begin(_, _, _, _) => false
    case Write(q, _) => q == p
    case FinishCopy(q) => q == p
    case Fail(q) => q == p
    case Link(q) => q == p
    case RemoveTemp(q, _) => q == p
    case Die(q) => q == p
    case Delete(_) => false
  }

  predicate Succeeded(pc: PutPc) { (pc.Leaving? || pc.Returned?) && pc.size.Some? }

  /** Where `p` is, and what can be seen of it since `s`. */
  ghost predicate PutSeen(s: State, t: State, p: nat, key: string, source: Data) {
    && p in t.puts && t.puts[p].key == key && t.puts[p].source == source
    && (if key in View(t) then MayBePublished(t.puts[p].pc) && View(t) == View(s)[key := source]
        else !Succeeded(t.puts[p].pc) && View(t) == View(s))
  }

  lemma NamedIsSeen(s: State, key: string)
    requires Inv(s) && ValidKey(key)
    ensures key in s.names <==> key in View(s)
  {
    if key in s.names { assert NameOk(s.files, s.puts, key, s.names[key]); }
  }

  lemma PutStep(s: State, t: State, step: Step, p: nat, key: string, source: Data)
    requires Inv(t) && PutSeen(s, t, p, key, source) && key !in View(s) && ValidKey(key)
    requires Enabled(t, step) && OfPut(step, p)
    ensures PutSeen(s, Next(t, step), p, key, source)
  {
    StepSeen(t, step);
    NamedIsSeen(t, key);
  }

  lemma {:induction false} PutRun(s: State, t: State, steps: seq<Step>, p: nat, key: string, source: Data)
    requires Inv(t) && PutSeen(s, t, p, key, source) && key !in View(s) && ValidKey(key)
    requires Run(t, steps).Some? && forall i :: 0 <= i < |steps| ==> OfPut(steps[i], p)
    ensures PutSeen(s, Run(t, steps).value, p, key, source)
  {
    if steps != [] {
      var n := |steps| - 1;
      PutRun(s, t, steps[..n], p, key, source);
      RunKeeps(t, steps[..n]);
      PutStep(s, Run(t, steps[..n]).value, steps[n], p, key, source);
    }
  }

  // ------------------------------------------------------- as protocol steps

  /** The protocol's steps for a `Put` that ended in this way. */
  function ProtocolSteps(u: nat, key: string, owner: string, source: Data, stored: bool, died: bool): seq<Blobs.Step> {
    [Blobs.OfUpload(u, Blobs.Put(key, owner, source, stored))]
    + if stored && died then [Blobs.OfUpload(u, Blobs.UploadDies)] else []
  }

  lemma ProtocolRuns(c: Blobs.Config, a: Blobs.State, u: nat, key: string, owner: string, source: Data, stored: bool,
      died: bool)
    requires Schedule.Valid(c.schedule) && u !in a.uploads && key !in a.roles
    ensures var b := Blobs.Run(c, a, ProtocolSteps(u, key, owner, source, stored, died));
      b.Some? && b.value.blobs == (if stored then a.blobs[key := source] else a.blobs)
  {
    var put := Blobs.OfUpload(u, Blobs.Put(key, owner, source, stored));
    var steps := ProtocolSteps(u, key, owner, source, stored, died);
    assert Blobs.Run(c, a, []) == Some(a) && [put][..0] == [];
    assert Blobs.Run(c, a, [put]) == Some(Blobs.AfterPut(a, u, key, owner, source, stored));
    if stored && died { assert steps[..1] == [put] && steps[1] == Blobs.OfUpload(u, Blobs.UploadDies); }
  }

  /** A whole `Put` of a new key, to its return or its death anywhere, is for the protocol
      one `Put` step, stored if and only if it returned a size, or that step and the death
      of its upload; and a size that it returns is that of the source. */
  lemma PutIsStep(s: State, p: nat, key: string, source: Data, suffix: string, steps: seq<Step>, t: State,
                  c: Blobs.Config, a: Blobs.State, u: nat, owner: string)
    requires Inv(s) && Enabled(s, Begin(p, key, source, suffix)) && key !in View(s)
    requires Run(AfterBegin(s, p, key, source, suffix), steps) == Some(t)
    requires forall i :: 0 <= i < |steps| ==> OfPut(steps[i], p)
    requires p in t.puts && (t.puts[p].pc.Returned? || t.puts[p].pc.Dead?)
    requires Schedule.Valid(c.schedule) && a.blobs == View(s) && u !in a.uploads && key !in a.roles
    ensures var stored, died := key in View(t), t.puts[p].pc.Dead?;
      var b := Blobs.Run(c, a, ProtocolSteps(u, key, owner, source, stored, died));
      && b.Some? && b.value.blobs == View(t)
      && (t.puts[p].pc.Returned? ==> t.puts[p].pc.size == if stored then Some(|source|) else None)
  {
    var first := AfterBegin(s, p, key, source, suffix);
    BeginKeeps(s, p, key, source, suffix);
    BeginSeen(s, p, key, source, suffix);
    PutRun(s, first, steps, p, key, source);
    RunKeeps(first, steps);
    assert PutOk(t.files, p, t.puts[p]);
    ProtocolRuns(c, a, u, key, owner, source, key in View(t), t.puts[p].pc.Dead?);
  }

  /** `Delete` is the protocol's removal, which finds the blob or does not. */
  lemma DeleteIsRemoval(s: State, key: string)
    requires Inv(s) && ValidKey(key)
    ensures var outcome := if key in View(s) then Blobs.Removed else Blobs.Missing;
      && Blobs.OutcomeFits(View(s), key, outcome)
      && View(Next(s, Delete(key))) == Blobs.AfterRemoval(View(s), key, outcome)
  {
    StepSeen(s, Delete(key));
  }
}
