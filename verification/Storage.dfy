/** The served directory under interleaved uploads: which names can ever show a partial file. */
module Storage {
  import opened Common
  import opened Decimals
  import opened Rounds
  import opened Uploads

  /** One admitted PUT. Uploads are identified by the request id. */
  datatype Put = Put(name: string, body: Bytes)

  datatype Phase = Queued | Staging(offset: nat) | Committed | Dropped

  /** `owner` remembers, for each name, the last upload committed under it. */
  datatype Disk = Disk(files: map<string, Bytes>, phase: map<nat, Phase>, owner: map<string, nat>)

  /**
   * File operations of the workers, in any interleaving: create the staging file; write the next
   * bytes; give up and remove the staging file; rename it to the final name, which may fail.
   */
  datatype Action =
    | Create(id: nat)
    | Append(id: nat, n: nat)
    | Drop(id: nat)
    | Commit(id: nat)
    | CommitFails(id: nat)

  type Puts = map<nat, Put>

  function Staged(puts: Puts, id: nat): string
    requires id in puts
  {
    StagingName(puts[id].name, id)
  }

  predicate Allowed(puts: Puts, s: Disk, a: Action) {
    && a.id in puts && a.id in s.phase
    && match a
       case Create(id) => s.phase[id].Queued?
       case Append(id, n) =>
         && s.phase[id].Staging? && Staged(puts, id) in s.files
         && s.phase[id].offset + n <= |puts[id].body|
       case Drop(id) => s.phase[id].Queued? || s.phase[id].Staging?
       case Commit(id) => s.phase[id] == Staging(|puts[id].body|) && Staged(puts, id) in s.files
       case CommitFails(id) => s.phase[id] == Staging(|puts[id].body|)
  }

  function Do(puts: Puts, s: Disk, a: Action): Disk
    requires Allowed(puts, s, a)
  {
    var staging, put := Staged(puts, a.id), puts[a.id];
    match a
    case Create(id) => s.(files := s.files[staging := []], phase := s.phase[id := Staging(0)])
    case Append(id, n) =>
      var o := s.phase[id].offset;
      s.(files := s.files[staging := WriteAt(s.files[staging], o, put.body[o..o + n])],
         phase := s.phase[id := Staging(o + n)])
    case Drop(id) => s.(files := s.files - {staging}, phase := s.phase[id := Dropped])
    case Commit(id) =>
      s.(files := (s.files - {staging})[put.name := s.files[staging]],
         phase := s.phase[id := Committed],
         owner := s.owner[put.name := id])
    case CommitFails(id) => s.(phase := s.phase[id := Dropped])
  }

  predicate IsRun(puts: Puts, s: Disk, run: seq<Action>)
    decreases |run|
  {
    run == [] || (Allowed(puts, s, run[0]) && IsRun(puts, Do(puts, s, run[0]), run[1..]))
  }

  function After(puts: Puts, s: Disk, run: seq<Action>): Disk
    requires IsRun(puts, s, run)
    decreases |run|
  {
    if run == [] then s else After(puts, Do(puts, s, run[0]), run[1..])
  }

  function Begin(puts: Puts, files: map<string, Bytes>): Disk {
    Disk(files, map id | id in puts :: Queued, map[])
  }

  // ----- Staging names -----

  /** A staging name determines the request: two uploads never share one. */
  lemma StagingInjective(m: string, i: nat, n: string, j: nat)
    requires StagingName(m, i) == StagingName(n, j)
    ensures i == j && m == n
  {
    var s, a, b := StagingName(m, i), Decimal(i), Decimal(j);
    var mid := ".upload.";
    assert s == (m + mid) + a == (n + mid) + b;
    DotBeforeDigits(m + mid, a, n + mid, b);
    DotBeforeDigits(n + mid, b, m + mid, a);
    assert a == s[|s| - |a|..] == b;
    DecimalInjective(i, j);
    assert m == s[..|s| - |a| - |mid|] == n;
  }

  /** A run of digits at the end of a string cannot reach back over a dot. */
  lemma DotBeforeDigits(p: string, a: string, q: string, b: string)
    requires p + a == q + b && AllDigits(b)
    requires |p| > 0 && p[|p| - 1] == '.'
    ensures |b| <= |a|
  {
    var s := p + a;
    assert forall k :: |q| <= k < |s| ==> s[k] == b[k - |q|];
    assert s[|p| - 1] == '.';
  }

  /** Some upload is to be published under the staging name of another. */
  ghost predicate Clash(puts: Puts, u: nat, v: nat) {
    u in puts && v in puts && puts[u].name == Staged(puts, v)
  }

  predicate IsStaging(puts: Puts, name: string) {
    exists id :: id in puts && name == Staged(puts, id)
  }

  // ----- Visible files are whole -----

  /** Every other name holds what it held at first, or the body of the last upload committed to it. */
  ghost predicate Whole(puts: Puts, files: map<string, Bytes>, s: Disk) {
    forall name :: !IsStaging(puts, name) ==>
      if name in s.owner
      then s.owner[name] in puts && puts[s.owner[name]].name == name
           && name in s.files && s.files[name] == puts[s.owner[name]].body
      else (name in s.files <==> name in files) && (name in files ==> s.files[name] == files[name])
  }

  /** Every upload in progress has exactly its first `offset` bytes staged. */
  ghost predicate Prefixes(puts: Puts, s: Disk) {
    && s.phase.Keys == puts.Keys
    && (forall id :: id in puts && s.phase[id].Staging? ==>
          && s.phase[id].offset <= |puts[id].body|
          && Staged(puts, id) in s.files
          && s.files[Staged(puts, id)] == puts[id].body[..s.phase[id].offset])
  }

  /** An action changes no file but the staging file of its upload, and on commit the final name. */
  lemma Untouched(puts: Puts, s: Disk, a: Action, name: string)
    requires Allowed(puts, s, a)
    requires name != Staged(puts, a.id) && (a.Commit? ==> name != puts[a.id].name)
    ensures var n := Do(puts, s, a);
            && (name in n.files <==> name in s.files)
            && (name in s.files ==> n.files[name] == s.files[name])
            && (name in n.owner <==> name in s.owner)
            && (name in s.owner ==> n.owner[name] == s.owner[name])
  {
  }

  lemma AppendExtends(puts: Puts, s: Disk, a: Action)
    requires a.Append? && Allowed(puts, s, a) && Prefixes(puts, s)
    ensures var n, staging := Do(puts, s, a), Staged(puts, a.id);
            staging in n.files && n.files[staging] == puts[a.id].body[..n.phase[a.id].offset]
  {
    hide StagingName, WriteAt;
    var body, o := puts[a.id].body, s.phase[a.id].offset;
    WriteAtEnd(body[..o], body[o..o + a.n]);
    assert body[..o] + body[o..o + a.n] == body[..o + a.n];
  }

  lemma PrefixesKept(puts: Puts, s: Disk, a: Action)
    requires Allowed(puts, s, a) && Prefixes(puts, s)
    requires forall u, v :: !Clash(puts, u, v)
    ensures Prefixes(puts, Do(puts, s, a))
  {
    hide StagingName, WriteAt;
    var n := Do(puts, s, a);
    forall id | id in puts && n.phase[id].Staging?
      ensures && n.phase[id].offset <= |puts[id].body|
              && Staged(puts, id) in n.files
              && n.files[Staged(puts, id)] == puts[id].body[..n.phase[id].offset]
    {
      if id != a.id {
        OtherStaging(puts, id, a.id);
        assert !Clash(puts, a.id, id);
        Untouched(puts, s, a, Staged(puts, id));
      } else if a.Append? {
        AppendExtends(puts, s, a);
      }
    }
  }

  lemma OtherStaging(puts: Puts, i: nat, j: nat)
    requires i in puts && j in puts && i != j
    ensures Staged(puts, i) != Staged(puts, j)
  {
    hide StagingName;
    if Staged(puts, i) == Staged(puts, j) {
      StagingInjective(puts[i].name, i, puts[j].name, j);
    }
  }

  lemma WholeKept(puts: Puts, files: map<string, Bytes>, s: Disk, a: Action)
    requires Allowed(puts, s, a) && Prefixes(puts, s) && Whole(puts, files, s)
    ensures Whole(puts, files, Do(puts, s, a))
  {
    hide StagingName, WriteAt;
    var n := Do(puts, s, a);
    forall name | !IsStaging(puts, name)
      ensures if name in n.owner
              then n.owner[name] in puts && puts[n.owner[name]].name == name
                   && name in n.files && n.files[name] == puts[n.owner[name]].body
              else (name in n.files <==> name in files) && (name in files ==> n.files[name] == files[name])
    {
      if a.Commit? && name == puts[a.id].name {
        assert puts[a.id].body[..|puts[a.id].body|] == puts[a.id].body;
      } else {
        assert name != Staged(puts, a.id);
        Untouched(puts, s, a, name);
      }
    }
  }

  /**
   * In every interleaving, if no upload is named like the staging file of another, all visible
   * names hold their initial content or the complete body of a committed upload.
   */
  lemma {:induction false} VisibleFilesWhole(puts: Puts, files: map<string, Bytes>, s: Disk, run: seq<Action>)
    requires forall u, v :: !Clash(puts, u, v)
    requires Prefixes(puts, s) && Whole(puts, files, s) && IsRun(puts, s, run)
    ensures Prefixes(puts, After(puts, s, run)) && Whole(puts, files, After(puts, s, run))
    decreases |run|
  {
    hide Prefixes, Whole, Do, Allowed, Clash;
    if run != [] {
      PrefixesKept(puts, s, run[0]);
      WholeKept(puts, files, s, run[0]);
      VisibleFilesWhole(puts, files, Do(puts, s, run[0]), run[1..]);
    }
  }

  /** An upload that fails at any point changes no visible file. */
  lemma FailureChangesNothingVisible(puts: Puts, s: Disk, a: Action, name: string)
    requires Allowed(puts, s, a) && !a.Commit? && !IsStaging(puts, name)
    ensures var n := Do(puts, s, a);
            && (name in n.files <==> name in s.files)
            && (name in s.files ==> n.files[name] == s.files[name])
  {
    Untouched(puts, s, a, name);
  }

  // ----- The condition is exact -----

  /** The interleaving in which `u` is published onto the complete staging file of `v`. */
  function Mixup(puts: Puts, u: nat, v: nat): seq<Action>
    requires u in puts && v in puts
  {
    [Create(v), Append(v, |puts[v].body|), Create(u), Append(u, |puts[u].body|), Commit(u), Commit(v)]
  }

  lemma OneMore(puts: Puts, s: Disk, a: Action, rest: seq<Action>)
    requires Allowed(puts, s, a) && IsRun(puts, Do(puts, s, a), rest)
    ensures IsRun(puts, s, [a] + rest)
    ensures After(puts, s, [a] + rest) == After(puts, Do(puts, s, a), rest)
  {
    assert ([a] + rest)[0] == a && ([a] + rest)[1..] == rest;
  }

  /** Creating and filling a staging file. */
  lemma Fill(puts: Puts, s: Disk, id: nat) returns (n: Disk)
    requires id in puts && id in s.phase && s.phase[id].Queued?
    ensures Allowed(puts, s, Create(id))
    ensures Allowed(puts, Do(puts, s, Create(id)), Append(id, |puts[id].body|))
    ensures n == Do(puts, Do(puts, s, Create(id)), Append(id, |puts[id].body|))
    ensures n == s.(files := s.files[Staged(puts, id) := puts[id].body],
                    phase := s.phase[id := Staging(|puts[id].body|)])
  {
    hide StagingName;
    n := Do(puts, Do(puts, s, Create(id)), Append(id, |puts[id].body|));
    var body := puts[id].body;
    WriteAtEnd([], body);
    assert body[0..0 + |body|] == body && [] + body == body;
  }

  /** A clash lets one upload's body appear under another's name. */
  lemma ClashMixesUp(puts: Puts, files: map<string, Bytes>, u: nat, v: nat)
    requires Clash(puts, u, v)
    ensures IsRun(puts, Begin(puts, files), Mixup(puts, u, v))
    ensures var end := After(puts, Begin(puts, files), Mixup(puts, u, v));
            && puts[v].name in end.files && end.files[puts[v].name] == puts[u].body
            && puts[v].name in end.owner && end.owner[puts[v].name] == v
  {
    hide StagingName, Do, Allowed, IsRun, After;
    LongerName(puts, u, v);
    OtherStaging(puts, u, v);
    var s0 := Begin(puts, files);
    var s1 := Fill(puts, s0, v);
    var s2 := Fill(puts, s1, u);
    var s3 := Publish(puts, s2, u);
    var s4 := Publish(puts, s3, v);
    MixupRun(puts, s0, u, v, s1, s2, s3, s4);
  }

  lemma LongerName(puts: Puts, u: nat, v: nat)
    requires Clash(puts, u, v)
    ensures |puts[v].name| < |puts[u].name| && u != v
  {
  }

  lemma Publish(puts: Puts, s: Disk, id: nat) returns (n: Disk)
    requires id in puts && id in s.phase && s.phase[id] == Staging(|puts[id].body|) && Staged(puts, id) in s.files
    ensures Allowed(puts, s, Commit(id)) && n == Do(puts, s, Commit(id))
    ensures n.files == (s.files - {Staged(puts, id)})[puts[id].name := s.files[Staged(puts, id)]]
    ensures n.phase == s.phase[id := Committed] && n.owner == s.owner[puts[id].name := id]
  {
    n := Do(puts, s, Commit(id));
  }

  lemma MixupRun(puts: Puts, s0: Disk, u: nat, v: nat, s1: Disk, s2: Disk, s3: Disk, s4: Disk)
    requires u in puts && v in puts
    requires Allowed(puts, s0, Create(v))
    requires Allowed(puts, Do(puts, s0, Create(v)), Append(v, |puts[v].body|))
    requires s1 == Do(puts, Do(puts, s0, Create(v)), Append(v, |puts[v].body|))
    requires Allowed(puts, s1, Create(u))
    requires Allowed(puts, Do(puts, s1, Create(u)), Append(u, |puts[u].body|))
    requires s2 == Do(puts, Do(puts, s1, Create(u)), Append(u, |puts[u].body|))
    requires Allowed(puts, s2, Commit(u)) && s3 == Do(puts, s2, Commit(u))
    requires Allowed(puts, s3, Commit(v)) && s4 == Do(puts, s3, Commit(v))
    ensures IsRun(puts, s0, Mixup(puts, u, v)) && After(puts, s0, Mixup(puts, u, v)) == s4
  {
    hide Do, Allowed;
    var r1: seq<Action> := [Commit(v)];
    assert IsRun(puts, s3, r1) && After(puts, s3, r1) == s4 by {
      assert r1[1..] == [];
    }
    hide IsRun, After;
    var r2 := [Commit(u)] + r1;
    OneMore(puts, s2, Commit(u), r1);
    var r3 := [Append(u, |puts[u].body|)] + r2;
    OneMore(puts, Do(puts, s1, Create(u)), Append(u, |puts[u].body|), r2);
    var r4 := [Create(u)] + r3;
    OneMore(puts, s1, Create(u), r3);
    var r5 := [Append(v, |puts[v].body|)] + r4;
    OneMore(puts, Do(puts, s0, Create(v)), Append(v, |puts[v].body|), r4);
    OneMore(puts, s0, Create(v), r5);
    assert [Create(v)] + r5 == Mixup(puts, u, v);
  }

  /** Every clash leads to one whose victim has a visible name. */
  lemma {:induction false} VisibleVictim(puts: Puts, u: nat, v: nat) returns (x: nat, y: nat)
    requires Clash(puts, u, v)
    ensures Clash(puts, x, y) && !IsStaging(puts, puts[y].name)
    decreases |puts[v].name|
  {
    hide StagingName;
    if IsStaging(puts, puts[v].name) {
      var w :| w in puts && puts[v].name == Staged(puts, w);
      LongerName(puts, v, w);
      x, y := VisibleVictim(puts, v, w);
    } else {
      x, y := u, v;
    }
  }

  /** `puts` with the given bodies. */
  function WithBodies(names: map<nat, string>, bodies: map<nat, Bytes>): Puts
    requires bodies.Keys == names.Keys
  {
    map id | id in names :: Put(names[id], bodies[id])
  }

  /** Whatever is uploaded under these names, and in whatever order, visible files stay whole. */
  ghost predicate AlwaysWhole(names: map<nat, string>) {
    forall bodies: map<nat, Bytes>, files: map<string, Bytes>, run: seq<Action> ::
      bodies.Keys == names.Keys && IsRun(WithBodies(names, bodies), Begin(WithBodies(names, bodies), files), run) ==>
        Whole(WithBodies(names, bodies), files,
              After(WithBodies(names, bodies), Begin(WithBodies(names, bodies), files), run))
  }

  ghost predicate NamesClash(names: map<nat, string>) {
    exists u, v :: u in names && v in names && names[u] == StagingName(names[v], v)
  }

  /** Visible files are always whole exactly when no request name is the staging name of another. */
  lemma WholeExactly(names: map<nat, string>)
    ensures AlwaysWhole(names) <==> !NamesClash(names)
  {
    hide StagingName, IsRun, After, Whole;
    if NamesClash(names) {
      var u, v :| u in names && v in names && names[u] == StagingName(names[v], v);
      ClashBreaks(names, u, v);
    } else {
      forall bodies: map<nat, Bytes>, files: map<string, Bytes>, run: seq<Action>
        | bodies.Keys == names.Keys && IsRun(WithBodies(names, bodies), Begin(WithBodies(names, bodies), files), run)
        ensures Whole(WithBodies(names, bodies), files,
                      After(WithBodies(names, bodies), Begin(WithBodies(names, bodies), files), run))
      {
        var puts := WithBodies(names, bodies);
        assert forall u, v :: !Clash(puts, u, v);
        BeginWhole(puts, files);
        VisibleFilesWhole(puts, files, Begin(puts, files), run);
      }
    }
  }

  lemma BeginWhole(puts: Puts, files: map<string, Bytes>)
    ensures Prefixes(puts, Begin(puts, files)) && Whole(puts, files, Begin(puts, files))
  {
  }

  lemma ClashBreaks(names: map<nat, string>, u: nat, v: nat)
    requires u in names && v in names && names[u] == StagingName(names[v], v)
    ensures !AlwaysWhole(names)
  {
    hide StagingName, IsRun, After, Mixup, IsStaging;
    var any := WithBodies(names, map id | id in names :: "");
    var x, y := VisibleVictim(any, u, v);
    LongerName(any, x, y);
    var bodies := map id | id in names :: if id == x then "x" else "";
    var puts := WithBodies(names, bodies);
    assert Clash(puts, x, y);
    SameStaging(any, puts, puts[y].name);
    ClashMixesUp(puts, map[], x, y);
  }

  lemma SameStaging(a: Puts, b: Puts, name: string)
    requires a.Keys == b.Keys && forall id :: id in a ==> a[id].name == b[id].name
    ensures IsStaging(a, name) <==> IsStaging(b, name)
  {
    hide StagingName;
    assert forall id :: id in a ==> Staged(a, id) == Staged(b, id);
  }
}
