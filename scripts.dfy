/** Scripts injected into the page before its own code runs, and the
    replace-by-name insertion into a profile's script collection. */
module Scripts {
  import opened Values
  import opened Settings

  /** The script world a script runs in: the page's own, the isolated
      application world, or a user world. */
  datatype World = MainWorld | ApplicationWorld | UserWorld

  /** When in the page's life a script runs. */
  datatype InjectionPoint = Deferred | DocumentReady | DocumentCreation

  datatype Script = Script(
    name: string,
    source: string,
    world: World,
    injectionPoint: InjectionPoint,
    runsOnSubframes: bool)

  const FilesDataName := "files-data.js"

  /** A script record; by default isolated, run at document creation and on
      every subframe. */
  function CreateScript(
    name: string,
    src: string,
    world: World := ApplicationWorld,
    injectionPoint: InjectionPoint := DocumentCreation,
    onSubframes: bool := true): (r: Script)
    ensures r.name == name && r.source == src
    ensures r.world == world && r.injectionPoint == injectionPoint && r.runsOnSubframes == onSubframes
  {
    Script(name, src, world, injectionPoint, onSubframes)
  }

  lemma CreateScriptDefaults(name: string, src: string)
    ensures var s := CreateScript(name, src);
      && s.name == name && s.source == src
      && s.world == ApplicationWorld
      && s.injectionPoint == DocumentCreation
      && s.runsOnSubframes
  {
  }

  /** The data script's text: image_data, then config, each bound to a JSON
      text. */
  function DataSource(filesText: string, configText: string): (r: string) {
    "image_data = " + filesText + ";" + "config = " + configText + ";"
  }

  datatype FilesDataOutcome = FilesDataOutcome(script: Result<Script, ConfigError>, after: ConfigState)

  /** The per-session data script. It reads the settings itself, so it
      raises when that read raises and otherwise binds exactly what the
      store holds from then on. The JSON text encoder is a parameter. */
  function FilesData(files: Json, s: ConfigState, dumps: Json -> string): (r: FilesDataOutcome)
    ensures r.after == ReadConfig(s).after
    ensures r.script.Ok? <==> ReadConfig(s).config.Ok?
    ensures r.script.Ok? ==>
      var later := ReadConfig(r.after).config;
      later.Ok? && r.script.value == CreateScript(FilesDataName, DataSource(dumps(files), dumps(JObject(later.value))))
    ensures r.script.Err? ==> r.script.error == Unparsable && ReadConfig(r.after).config == Ok(Defaults)
  {
    var read := ReadConfig(s);
    match read.config
    case Err(e) => FilesDataOutcome(Err(e), read.after)
    case Ok(c) => FilesDataOutcome(Ok(CreateScript(FilesDataName, DataSource(dumps(files), dumps(JObject(c))))), read.after)
  }

  /** A data script whose settings read raised can be built on a second try,
      and then binds the bare defaults. */
  lemma FilesDataRetry(files: Json, s: ConfigState, dumps: Json -> string)
    requires FilesData(files, s, dumps).script.Err?
    ensures FilesData(files, FilesData(files, s, dumps).after, dumps).script
         == Ok(CreateScript(FilesDataName, DataSource(dumps(files), dumps(JObject(Defaults)))))
  {
  }

  /** A data script built after a settings update binds the updated
      settings, even when writing them to the file failed. */
  lemma FilesDataSeesUpdate(files: Json, s: ConfigState, patch: Object, dumps: Json -> string)
    requires ReadConfig(s).config.Ok?
    ensures var merged := Merge(ReadConfig(s).config.value, patch);
      FilesData(files, UpdateConfig(s, patch).after, dumps).script
        == Ok(CreateScript(FilesDataName, DataSource(dumps(files), dumps(JObject(merged)))))
  {
  }

  /** The entries of s named name, in order (the collection's find). */
  function WithName(s: seq<Script>, name: string): (r: seq<Script>)
    ensures forall x :: x in r <==> x in s && x.name == name
    ensures |r| <= |s|
  {
    if s == [] then []
    else (if s[0].name == name then [s[0]] else []) + WithName(s[1..], name)
  }

  /** s without any entry equal to e (the collection's remove). */
  function Without(s: seq<Script>, e: Script): (r: seq<Script>)
    ensures forall x :: x in r <==> x in s && x != e
    ensures |r| <= |s|
  {
    if s == [] then []
    else (if s[0] == e then [] else [s[0]]) + Without(s[1..], e)
  }

  /** s without any entry that occurs in gone. */
  function Drop(s: seq<Script>, gone: seq<Script>): (r: seq<Script>)
    ensures forall x :: x in r <==> x in s && x !in gone
  {
    if s == [] then []
    else (if s[0] in gone then [] else [s[0]]) + Drop(s[1..], gone)
  }

  /** s without any entry whose name is in names, the rest in order. */
  function RemoveNamed(s: seq<Script>, names: set<string>): (r: seq<Script>)
    ensures forall x :: x in r <==> x in s && x.name !in names
    ensures |r| <= |s|
  {
    if s == [] then []
    else (if s[0].name in names then [] else [s[0]]) + RemoveNamed(s[1..], names)
  }

  function Names(batch: seq<Script>): (r: set<string>) {
    set x | x in batch :: x.name
  }

  /** What inserting a batch makes of a collection: the old entries whose
      names the batch does not use, then the batch in order. */
  function Replaced(s: seq<Script>, batch: seq<Script>): (r: seq<Script>)
    ensures forall x :: x in r <==> (x in s && x.name !in Names(batch)) || x in batch
    ensures |batch| <= |r| && r[|r| - |batch|..] == batch
  {
    RemoveNamed(s, Names(batch)) + batch
  }

  lemma {:induction false} WithNameAppend(a: seq<Script>, b: seq<Script>, name: string)
    ensures WithName(a + b, name) == WithName(a, name) + WithName(b, name)
  {
    if a == [] {
      assert a + b == b;
    } else {
      assert (a + b)[0] == a[0];
      assert (a + b)[1..] == a[1..] + b;
      WithNameAppend(a[1..], b, name);
    }
  }

  lemma {:induction false} RemoveNamedAppend(a: seq<Script>, b: seq<Script>, names: set<string>)
    ensures RemoveNamed(a + b, names) == RemoveNamed(a, names) + RemoveNamed(b, names)
  {
    if a == [] {
      assert a + b == b;
    } else {
      assert (a + b)[0] == a[0];
      assert (a + b)[1..] == a[1..] + b;
      RemoveNamedAppend(a[1..], b, names);
    }
  }

  lemma {:induction false} WithNameOfRemoveNamed(s: seq<Script>, names: set<string>, name: string)
    ensures WithName(RemoveNamed(s, names), name) == if name in names then [] else WithName(s, name)
  {
    if s != [] {
      WithNameOfRemoveNamed(s[1..], names, name);
      var head := if s[0].name in names then [] else [s[0]];
      WithNameAppend(head, RemoveNamed(s[1..], names), name);
    }
  }

  /** Entries named otherwise than every batch member are exactly the old
      ones, in their old relative order. */
  lemma OthersUntouched(s: seq<Script>, batch: seq<Script>, name: string)
    requires name !in Names(batch)
    ensures WithName(Replaced(s, batch), name) == WithName(s, name)
  {
    WithNameAppend(RemoveNamed(s, Names(batch)), batch, name);
    WithNameOfRemoveNamed(s, Names(batch), name);
    WithNameAbsent(batch, name);
  }

  lemma {:induction false} WithNameAbsent(s: seq<Script>, name: string)
    requires forall x :: x in s ==> x.name != name
    ensures WithName(s, name) == []
  {
    if s != [] {
      WithNameAbsent(s[1..], name);
    }
  }

  /** Entries named like a batch member are exactly those batch members. */
  lemma BatchNamesReplaced(s: seq<Script>, batch: seq<Script>, name: string)
    requires name in Names(batch)
    ensures WithName(Replaced(s, batch), name) == WithName(batch, name)
  {
    WithNameAppend(RemoveNamed(s, Names(batch)), batch, name);
    WithNameOfRemoveNamed(s, Names(batch), name);
  }

  /** Inserting a data script twice in a row leaves exactly one script of
      that name: the later one. */
  lemma InsertTwiceLeavesOne(s: seq<Script>, first: Script, second: Script)
    requires first.name == second.name
    ensures WithName(Replaced(Replaced(s, [first]), [second]), second.name) == [second]
  {
    assert second in [second];
    BatchNamesReplaced(Replaced(s, [first]), [second], second.name);
  }

  /** Setting up scripts twice on one collection, the data script first and
      the page script after it each time, leaves exactly one data script:
      the later. */
  lemma DataScriptOnce(
    sc: seq<Script>, files1: Json, s1: ConfigState, files2: Json, s2: ConfigState,
    dumps: Json -> string, client1: Script, client2: Script)
    requires FilesData(files1, s1, dumps).script.Ok? && FilesData(files2, s2, dumps).script.Ok?
    requires client2.name != FilesDataName
    ensures var first, second := FilesData(files1, s1, dumps).script.value, FilesData(files2, s2, dumps).script.value;
      WithName(Replaced(Replaced(sc, [first, client1]), [second, client2]), FilesDataName) == [second]
  {
    var first, second := FilesData(files1, s1, dumps).script.value, FilesData(files2, s2, dumps).script.value;
    var batch := [second, client2];
    assert second in batch;
    BatchNamesReplaced(Replaced(sc, [first, client1]), batch, FilesDataName);
    assert batch[1..] == [client2] && [client2][1..] == [];
  }

  lemma {:induction false} DropExtend(s: seq<Script>, gone: seq<Script>, e: Script)
    ensures Without(Drop(s, gone), e) == Drop(s, gone + [e])
  {
    if s != [] {
      DropExtend(s[1..], gone, e);
      var head := if s[0] in gone then [] else [s[0]];
      WithoutAppend(head, Drop(s[1..], gone), e);
    }
  }

  lemma {:induction false} WithoutAppend(a: seq<Script>, b: seq<Script>, e: Script)
    ensures Without(a + b, e) == Without(a, e) + Without(b, e)
  {
    if a == [] {
      assert a + b == b;
    } else {
      assert (a + b)[0] == a[0];
      assert (a + b)[1..] == a[1..] + b;
      WithoutAppend(a[1..], b, e);
    }
  }

  lemma {:induction false} DropNothing(s: seq<Script>)
    ensures Drop(s, []) == s
  {
    if s != [] {
      DropNothing(s[1..]);
    }
  }

  lemma {:induction false} RemoveNamedNothing(s: seq<Script>)
    ensures RemoveNamed(s, {}) == s
  {
    if s != [] {
      RemoveNamedNothing(s[1..]);
    }
  }

  lemma {:induction false} DropByName(s: seq<Script>, gone: seq<Script>, names: set<string>)
    requires forall x :: x in s ==> (x in gone <==> x.name in names)
    ensures Drop(s, gone) == RemoveNamed(s, names)
  {
    if s != [] {
      DropByName(s[1..], gone, names);
    }
  }

  lemma {:induction false} RemoveNamedTwice(s: seq<Script>, a: set<string>, b: set<string>)
    ensures RemoveNamed(RemoveNamed(s, a), b) == RemoveNamed(s, a + b)
  {
    if s != [] {
      RemoveNamedTwice(s[1..], a, b);
      var head := if s[0].name in a then [] else [s[0]];
      RemoveNamedAppend(head, RemoveNamed(s[1..], a), b);
    }
  }

  lemma NamesStep(batch: seq<Script>, i: nat)
    requires i < |batch|
    ensures Names(batch[..i + 1]) == Names(batch[..i]) + {batch[i].name}
  {
  }

  /** A profile's script collection. */
  class ScriptCollection {
    var scripts: seq<Script>

    constructor ()
      ensures scripts == []
    {
      scripts := [];
    }

    function Find(name: string): seq<Script>
      reads this
    {
      WithName(scripts, name)
    }

    method Remove(e: Script)
      modifies this
      ensures scripts == Without(old(scripts), e)
    {
      scripts := Without(scripts, e);
    }

    method Insert(e: Script)
      modifies this
      ensures scripts == old(scripts) + [e]
    {
      scripts := scripts + [e];
    }
  }

  /** The inner loop of insert_scripts: remove, one by one, every entry the
      collection finds under name. */
  method RemoveExisting(sc: ScriptCollection, name: string)
    modifies sc
    ensures sc.scripts == RemoveNamed(old(sc.scripts), {name})
  {
    ghost var current := sc.scripts;
    var found := sc.Find(name);
    DropNothing(current);
    for j := 0 to |found|
      invariant sc.scripts == Drop(current, found[..j])
    {
      DropExtend(current, found[..j], found[j]);
      assert found[..j + 1] == found[..j] + [found[j]];
      sc.Remove(found[j]);
    }
    assert found[..|found|] == found;
    DropByName(current, found, {name});
  }

  /** insert_scripts: every same-named entry is removed for the whole batch
      before any batch member is inserted. */
  method InsertScripts(sc: ScriptCollection, batch: seq<Script>)
    modifies sc
    ensures sc.scripts == Replaced(old(sc.scripts), batch)
  {
    ghost var original := sc.scripts;
    RemoveNamedNothing(original);
    assert Names(batch[..0]) == {};
    for i := 0 to |batch|
      invariant sc.scripts == RemoveNamed(original, Names(batch[..i]))
    {
      RemoveExisting(sc, batch[i].name);
      RemoveNamedTwice(original, Names(batch[..i]), {batch[i].name});
      NamesStep(batch, i);
    }
    assert batch[..|batch|] == batch;
    ghost var removed := sc.scripts;
    for i := 0 to |batch|
      invariant sc.scripts == removed + batch[..i]
    {
      sc.Insert(batch[i]);
      assert batch[..i + 1] == batch[..i] + [batch[i]];
    }
  }
}
