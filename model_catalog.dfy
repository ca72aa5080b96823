/**
 * The model catalog of `getAvailableModels`: display names for model ids,
 * the fixed default catalog, and the ordered name-to-id map built from a
 * `/models` listing, where a repeated display name overwrites in place.
 */
module ModelCatalog {
  import opened Wrappers
  import opened PhpString
  import opened JsonValue

  /** The known ids and their display names, in the order the name table lists them. */
  const NameTable: seq<(string, string)> := [
    ("gpt-4", "GPT-4"),
    ("gpt-3.5-turbo", "GPT-3.5 Turbo"),
    ("claude-3-haiku-20240307", "Claude 3 Haiku"),
    ("claude-3-sonnet-20240229", "Claude 3 Sonnet"),
    ("claude-3-opus-20240229", "Claude 3 Opus"),
    ("llama-2-70b-chat", "Llama 2 70B")
  ]

  /** `$nameMap[$modelId] ?? …`: the display name the table gives an id, if any. */
  function TableName(table: seq<(string, string)>, id: string): (r: Option<string>)
    ensures r.None? <==> forall i :: 0 <= i < |table| ==> table[i].0 != id
  {
    if table == [] then None
    else if table[0].0 == id then Some(table[0].1)
    else TableName(table[1..], id)
  }

  /** The first table row for `id` gives its name. */
  lemma {:induction false} TableNameAt(table: seq<(string, string)>, i: nat)
    requires i < |table|
    requires forall j :: 0 <= j < i ==> table[j].0 != table[i].0
    ensures TableName(table, table[i].0) == Some(table[i].1)
  {
    if i > 0 {
      TableNameAt(table[1..], i - 1);
    }
  }

  /** `str_replace(['-', '_'], ' ', $s)`. */
  function Spaced(s: string): (r: string)
    ensures |r| == |s|
    ensures forall i :: 0 <= i < |s| ==> r[i] == (if s[i] == '-' || s[i] == '_' then ' ' else s[i])
  {
    if s == [] then [] else [if s[0] == '-' || s[0] == '_' then ' ' else s[0]] + Spaced(s[1..])
  }

  /** The table lists each id once, so every row is the one its id finds. */
  lemma TableRows()
    ensures forall i :: 0 <= i < |NameTable| ==> TableName(NameTable, NameTable[i].0) == Some(NameTable[i].1)
  {
    forall i | 0 <= i < |NameTable|
      ensures TableName(NameTable, NameTable[i].0) == Some(NameTable[i].1)
    {
      assert forall j :: 0 <= j < |NameTable| && j != i ==> |NameTable[j].0| != |NameTable[i].0|;
      TableNameAt(NameTable, i);
    }
  }

  /**
   * `formatModelName($modelId)`: each of the six known ids gets the name the
   * table lists for it; any other id is made readable, keeping its length
   * and turning every `-` and `_` into a space.
   */
  function FormatModelName(id: string): (name: string)
    ensures forall i :: 0 <= i < |NameTable| && NameTable[i].0 == id ==> name == NameTable[i].1
    ensures (forall i :: 0 <= i < |NameTable| ==> NameTable[i].0 != id) ==>
              |name| == |id| && forall i :: 0 <= i < |name| ==> name[i] != '-' && name[i] != '_'
  {
    TableRows();
    match TableName(NameTable, id)
    case Some(n) => n
    case None => Ucfirst(Spaced(id))
  }

  /**
   * An id outside the table has its first character upper-cased and every
   * other character kept, except `-` and `_`, which become spaces.
   */
  lemma FormatUnknown(id: string)
    requires forall i :: 0 <= i < |NameTable| ==> NameTable[i].0 != id
    ensures var name := FormatModelName(id);
      && (id != [] ==> name[0] == UpperAscii(if id[0] == '-' || id[0] == '_' then ' ' else id[0]))
      && (forall i :: 1 <= i < |id| ==> name[i] == (if id[i] == '-' || id[i] == '_' then ' ' else id[i]))
  {
    var sp := Spaced(id);
    assert TableName(NameTable, id).None?;
    assert FormatModelName(id) == Ucfirst(sp);
    if id != [] {
      assert Ucfirst(sp)[1..] == sp[1..];
      forall i | 1 <= i < |id|
        ensures Ucfirst(sp)[i] == sp[i]
      {
        assert Ucfirst(sp)[i] == Ucfirst(sp)[1..][i - 1];
      }
    }
  }

  /** `getDefaultModels()`: display name to id, in this order. */
  const DefaultModels: seq<(string, Json)> := [
    ("GPT-4", JStr("gpt-4")),
    ("GPT-3.5 Turbo", JStr("gpt-3.5-turbo")),
    ("Claude 3 Haiku", JStr("claude-3-haiku-20240307")),
    ("Claude 3 Sonnet", JStr("claude-3-sonnet-20240229")),
    ("Claude 3 Opus", JStr("claude-3-opus-20240229")),
    ("Llama 2 70B", JStr("llama-2-70b-chat"))
  ]

  /**
   * The default catalog is the name table turned round, so every default
   * entry's name is the one `formatModelName` gives its id.
   */
  lemma DefaultsFormatted(i: nat)
    requires i < |DefaultModels|
    ensures DefaultModels[i].1.JStr?
    ensures FormatModelName(DefaultModels[i].1.s) == DefaultModels[i].0
  {
    assert DefaultModels[i] == (NameTable[i].1, JStr(NameTable[i].0));
  }

  /** `$m[$name]`, when set. */
  function Get(m: seq<(string, Json)>, name: string): Option<Json> {
    if m == [] then None
    else if m[0].0 == name then Some(m[0].1)
    else Get(m[1..], name)
  }

  /** `$m[$name] = $v`: an existing name keeps its place and takes the new value; a new name goes last. */
  function Put(m: seq<(string, Json)>, name: string, v: Json): seq<(string, Json)> {
    if m == [] then [(name, v)]
    else if m[0].0 == name then [(name, v)] + m[1..]
    else [m[0]] + Put(m[1..], name, v)
  }

  /** Putting a name adds it at the end when it is new and leaves the key order alone otherwise. */
  lemma {:induction false} PutNames(m: seq<(string, Json)>, name: string, v: Json)
    ensures Names(Put(m, name, v)) == if name in Names(m) then Names(m) else Names(m) + [name]
  {
    if m != [] && m[0].0 != name {
      PutNames(m[1..], name, v);
      assert Names(m) == [m[0].0] + Names(m[1..]);
    }
  }

  /** After putting, the name reads back the new value and every other name reads as before. */
  lemma {:induction false} PutGet(m: seq<(string, Json)>, name: string, v: Json, other: string)
    ensures Get(Put(m, name, v), name) == Some(v)
    ensures other != name ==> Get(Put(m, name, v), other) == Get(m, other)
  {
    if m != [] && m[0].0 != name {
      PutGet(m[1..], name, v, other);
    }
  }

  /** What one listed model contributes: nothing, a (display name, id) entry, or a type error. */
  datatype Contribution = Skip | Entry(name: string, id: Json) | TypeFault

  /**
   * One element of the listing's `data`: skipped unless its `id` is set; a
   * string id is named by `formatModelName`; a number or boolean id is first
   * converted to a string by PHP (`scalarText`); a list or object id cannot
   * be passed as a string and raises a type error.
   */
  function Contribute(model: Json, scalarText: Json -> string): (c: Contribution)
    ensures c.Skip? <==> Isset(model, [Name("id")]).None?
    ensures c.TypeFault? <==> Isset(model, [Name("id")]).Some? && IsArray(Isset(model, [Name("id")]).value)
    ensures c.Entry? ==> Isset(model, [Name("id")]) == Some(c.id)
    ensures c.Entry? && c.id.JStr? ==> c.name == FormatModelName(c.id.s)
    ensures c.Entry? && !c.id.JStr? ==> c.name == FormatModelName(scalarText(c.id))
  {
    match Isset(model, [Name("id")])
    case None => Skip
    case Some(id) =>
      match id
      case JStr(s) => Entry(FormatModelName(s), id)
      case JArr(_) => TypeFault
      case JObj(_) => TypeFault
      case _ => Entry(FormatModelName(scalarText(id)), id)
  }

  /**
   * The catalog built from the listed models, in order, or the type error
   * that aborts it: it fails exactly when some listed model has a list or
   * object `id`.
   */
  function Catalog(models: seq<Json>, scalarText: Json -> string): (r: Result<seq<(string, Json)>, string>)
    ensures r.Failure? <==> exists i :: 0 <= i < |models| && Contribute(models[i], scalarText).TypeFault?
    ensures r.Failure? ==> r.error == TypeErrorMessage
  {
    if models == [] then Success([])
    else
      assert forall i :: 0 <= i < |models| - 1 ==> models[..|models| - 1][i] == models[i];
      match Catalog(models[..|models| - 1], scalarText)
      case Failure(e) => Failure(e)
      case Success(m) =>
        match Contribute(models[|models| - 1], scalarText)
        case Skip => Success(m)
        case Entry(name, id) => Success(Put(m, name, id))
        case TypeFault => Failure(TypeErrorMessage)
  }

  const TypeErrorMessage := "formatModelName(): Argument #1 ($modelId) must be of type string"

  /** The loop of `getAvailableModels` over `$data['data']`. */
  method CollectModels(models: seq<Json>, scalarText: Json -> string) returns (r: Result<seq<(string, Json)>, string>)
    ensures r == Catalog(models, scalarText)
  {
    var m: seq<(string, Json)> := [];
    var i := 0;
    while i < |models|
      invariant 0 <= i <= |models|
      invariant Catalog(models[..i], scalarText) == Success(m)
    {
      assert models[..i + 1][..i] == models[..i];
      var c := Contribute(models[i], scalarText);
      match c {
        case Skip =>
        case Entry(name, id) =>
          m := Put(m, name, id);
        case TypeFault =>
          assert Catalog(models[..i + 1], scalarText) == Failure(TypeErrorMessage);
          CatalogFailureFinal(models, i + 1, scalarText);
          return Failure(TypeErrorMessage);
      }
      i := i + 1;
    }
    assert models[..i] == models;
    return Success(m);
  }

  /** A type error aborts the whole listing. */
  lemma CatalogFailureFinal(models: seq<Json>, k: nat, scalarText: Json -> string)
    requires k <= |models| && Catalog(models[..k], scalarText).Failure?
    ensures Catalog(models, scalarText) == Catalog(models[..k], scalarText)
  {
    var i :| 0 <= i < k && Contribute(models[..k][i], scalarText).TypeFault?;
    assert models[..k][i] == models[i];
  }

  /** The display names the listed models produce, in listing order, repeats included. */
  function EntryNames(models: seq<Json>, scalarText: Json -> string): seq<string> {
    if models == [] then []
    else
      var c := Contribute(models[|models| - 1], scalarText);
      EntryNames(models[..|models| - 1], scalarText) + (if c.Entry? then [c.name] else [])
  }

  /**
   * The catalog lists each display name once, in the order it first
   * appears in the listing: a repeated name keeps its first place.
   */
  lemma {:induction false} CatalogNames(models: seq<Json>, scalarText: Json -> string)
    requires Catalog(models, scalarText).Success?
    ensures Names(Catalog(models, scalarText).value) == FirstAppearances(EntryNames(models, scalarText))
  {
    if models != [] {
      var front := models[..|models| - 1];
      var c := Contribute(models[|models| - 1], scalarText);
      CatalogNames(front, scalarText);
      var ns := EntryNames(front, scalarText);
      if c.Entry? {
        assert EntryNames(models, scalarText) == ns + [c.name];
        FirstAppearancesSnoc(ns, c.name);
        PutNames(Catalog(front, scalarText).value, c.name, c.id);
      } else {
        assert EntryNames(models, scalarText) == ns;
      }
    }
  }

  /** No display name appears twice in a built catalog. */
  lemma CatalogDistinct(models: seq<Json>, scalarText: Json -> string)
    requires Catalog(models, scalarText).Success?
    ensures Distinct(Names(Catalog(models, scalarText).value))
  {
    CatalogNames(models, scalarText);
    FirstAppearancesDistinct(EntryNames(models, scalarText));
  }

  /** The last listed model with a given display name decides its id. */
  function LastIdNamed(models: seq<Json>, name: string, scalarText: Json -> string): Option<Json> {
    if models == [] then None
    else
      var c := Contribute(models[|models| - 1], scalarText);
      if c.Entry? && c.name == name then Some(c.id)
      else LastIdNamed(models[..|models| - 1], name, scalarText)
  }

  /** A display name maps to the id of the LAST listed model carrying it. */
  lemma {:induction false} CatalogGet(models: seq<Json>, name: string, scalarText: Json -> string)
    requires Catalog(models, scalarText).Success?
    ensures Get(Catalog(models, scalarText).value, name) == LastIdNamed(models, name, scalarText)
  {
    if models != [] {
      var front := models[..|models| - 1];
      var c := Contribute(models[|models| - 1], scalarText);
      CatalogGet(front, name, scalarText);
      if c.Entry? {
        PutGet(Catalog(front, scalarText).value, c.name, c.id, name);
      }
    }
  }

  /** The catalog is empty exactly when no listed model has its `id` set. */
  lemma {:induction false} CatalogEmpty(models: seq<Json>, scalarText: Json -> string)
    requires Catalog(models, scalarText).Success?
    ensures Catalog(models, scalarText).value == [] <==>
              forall i :: 0 <= i < |models| ==> Isset(models[i], [Name("id")]).None?
  {
    if models != [] {
      var front := models[..|models| - 1];
      CatalogEmpty(front, scalarText);
      var c := Contribute(models[|models| - 1], scalarText);
      if c.Entry? {
        PutNames(Catalog(front, scalarText).value, c.name, c.id);
      }
      assert forall i :: 0 <= i < |front| ==> front[i] == models[i];
    }
  }
}
