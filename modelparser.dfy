/**
 * The `TableProperty` tag of a model struct: the table name, and the
 * functions to generate, listed in the `gen` value as `|`-separated
 * declarations, each a bare name or a name with `(`arguments`)`.
 *
 * The tag values are given already extracted (`reflect.StructTag.Get` is
 * library code); the result maps each function name to its spec, since the
 * source returns the values of a Go map, in no particular order.
 */
module ModelParser {
  import opened Wrappers
  import opened Strs
  import opened ModelTypes
  import opened GenArgs
  import ModelGenerator

  /** The functions generated when the tag lists none; the last five need a primary key. */
  const DefaultGenFuncs: seq<string> := [
    "Add", "AddBatch", "SelectCount", "SelectAll", "DeleteById", "DeleteBatchIds", "SelectById", "SelectBatchIds"
  ]

  /** The default functions of a model with or without a primary key. */
  function DefaultNames(hasPrimaryKey: bool): (r: seq<string>)
    ensures |r| == if hasPrimaryKey then 8 else 3
  {
    if hasPrimaryKey then DefaultGenFuncs else DefaultGenFuncs[..3]
  }

  /** The spec of a function without arguments: its name is its key. */
  function DefaultSpec(name: string): GenFuncSpec
  {
    GenFuncSpec(name, name, multiset{}, {}, false, false)
  }

  /** `m` with each of `names` in turn set to its argument-less spec. */
  function WithDefaults(m: map<string, GenFuncSpec>, names: seq<string>): map<string, GenFuncSpec>
  {
    if |names| == 0 then m
    else WithDefaults(m, names[..|names| - 1])[names[|names| - 1] := DefaultSpec(names[|names| - 1])]
  }

  /** The four select families that take three arguments. */
  predicate SelectFamily(funcName: string)
  {
    HasPrefix(funcName, "SelectOneBy") || HasPrefix(funcName, "SelectListBy") ||
    HasPrefix(funcName, "SelectCountBy") || HasPrefix(funcName, "SelectPageBy")
  }

  /** The arguments of a declaration: the text after `(`, trimmed of `)` and spaces, split at commas, each trimmed. */
  function DeclArgs(argStr: string): seq<string>
  {
    TrimAll(Split(Trim(argStr, {')', ' '}), ','))
  }

  /** A parsed argument list, given its function and key names; an error gets the function's context added. */
  function WithNames(funcName: string, keyFuncName: string, r: Result<GenFuncSpec, Errs>): Result<(string, GenFuncSpec), Errs>
  {
    match r
    case Err(e) => Err(e + ["parse " + funcName + " failed"])
    case Ok(spec) => Ok((funcName, spec.(funcName := funcName, keyFuncName := keyFuncName)))
  }

  /** The error of an id-based function on a model without a primary key. */
  function NoPrimaryKey(modelName: string): Errs
  {
    ["model " + modelName + " has no primary key field, can not generate funcs select by id"]
  }

  /** A declaration without `(`: one of the eight known functions, the id-based ones only with a primary key. */
  function BareDecl(funcName: string, modelName: string, hasPrimaryKey: bool): (r: Result<(string, GenFuncSpec), Errs>)
  {
    if funcName in ["Add", "AddBatch", "SelectCount", "SelectAll"] then Ok((funcName, DefaultSpec(funcName)))
    else if funcName in ["DeleteById", "DeleteBatchIds", "SelectById", "SelectBatchIds"] then
      if !hasPrimaryKey then Err(NoPrimaryKey(modelName)) else Ok((funcName, DefaultSpec(funcName)))
    else Err(["unsupported function " + funcName + " without args"])
  }

  /** The key name of a select family: the function name up to and including its first "By". */
  function SelectKey(funcName: string): string
  {
    var index := IndexOfSub(funcName, "By");
    if index < 0 then funcName else funcName[..index + 2]
  }

  /** A declaration with arguments: the arity its name demands, then the arguments parsed in the order of `parseGenFuncArgs`. */
  function ArgsDecl(funcName: string, args: seq<string>, fields: seq<ModelField>): (r: Result<(string, GenFuncSpec), Errs>)
  {
    if funcName == "DeleteBy" then
      if |args| != 1 then Err(["DeleteBy must have 1 parameters"])
      else WithNames(funcName, funcName, GenFuncArgs(args[0], "", "", "", fields))
    else if funcName == "UpdateById" then
      if |args| != 2 then Err(["UpdateById must have 2 parameters"])
      else WithNames(funcName, funcName, GenFuncArgs("", args[0], "", args[1], fields))
    else if HasPrefix(funcName, "UpdateBy") then
      if |args| != 4 then Err([funcName + " must have 4 parameters"])
      else WithNames(funcName, "UpdateBy", GenFuncArgs(args[0], args[1], args[2], args[3], fields))
    else if SelectFamily(funcName) then
      if |args| != 3 then Err([funcName + " must have 4 parameters"])
      else WithNames(funcName, SelectKey(funcName), GenFuncArgs(args[0], args[1], args[2], "", fields))
    else Err(["unsupported function " + funcName])
  }

  /** One declaration of the `gen` value: the function's name and spec, or the error that stops the parse. */
  function DeclSpec(decl: string, modelName: string, fields: seq<ModelField>, hasPrimaryKey: bool): Result<(string, GenFuncSpec), Errs>
  {
    var (funcName, argStr, found) := Cut(TrimSpace(decl), "(");
    if !found then BareDecl(funcName, modelName, hasPrimaryKey)
    else ArgsDecl(funcName, DeclArgs(argStr), fields)
  }

  /** The functions of the declarations in order, a later one replacing an earlier one of the same name; the first error stops it. */
  function GenFuncMap(decls: seq<string>, modelName: string, fields: seq<ModelField>, hasPrimaryKey: bool): Result<map<string, GenFuncSpec>, Errs>
  {
    if |decls| == 0 then Ok(map[])
    else
      match GenFuncMap(decls[..|decls| - 1], modelName, fields, hasPrimaryKey)
      case Err(e) => Err(e)
      case Ok(m) =>
        match DeclSpec(decls[|decls| - 1], modelName, fields, hasPrimaryKey)
        case Err(e) => Err(e)
        case Ok(entry) => Ok(m[entry.0 := entry.1])
  }

  /** The outcome of `parseTablePropertyTag` for the tag's `tableName` and `gen` values. */
  function PropertyTag(tableName: string, genTag: string, modelName: string, fields: seq<ModelField>, hasPrimaryKey: bool)
    : Result<(string, map<string, GenFuncSpec>), Errs>
  {
    if tableName == "" then Err(["tableName tag is not specified, model struct is " + modelName])
    else if genTag == "" then Ok((tableName, WithDefaults(map[], DefaultNames(hasPrimaryKey))))
    else
      match GenFuncMap(Split(genTag, '|'), modelName, fields, hasPrimaryKey)
      case Err(e) => Err(e)
      case Ok(m) => Ok((tableName, WithDefaults(m, DefaultNames(hasPrimaryKey))))
  }

  /** The body of the declaration loop: one declaration parsed. */
  method ParseGenFuncDecl(decl: string, modelName: string, fields: seq<ModelField>, hasPrimaryKey: bool)
    returns (r: Result<(string, GenFuncSpec), Errs>)
    ensures r == DeclSpec(decl, modelName, fields, hasPrimaryKey)
  {
    var d := TrimSpace(decl);
    var (funcName, argStr, found) := Cut(d, "(");
    if !found {
      if funcName in ["Add", "AddBatch", "SelectCount", "SelectAll"] {
      } else if funcName in ["DeleteById", "DeleteBatchIds", "SelectById", "SelectBatchIds"] {
        if !hasPrimaryKey {
          return Err(NoPrimaryKey(modelName));
        }
      } else {
        return Err(["unsupported function " + funcName + " without args"]);
      }
      return Ok((funcName, DefaultSpec(funcName)));
    }
    r := ParseArgsDecl(funcName, DeclArgs(argStr), fields);
  }

  /** A declaration with arguments: the arity check, then `parseGenFuncArgs`. */
  method ParseArgsDecl(funcName: string, args: seq<string>, fields: seq<ModelField>)
    returns (r: Result<(string, GenFuncSpec), Errs>)
    ensures r == ArgsDecl(funcName, args, fields)
  {
    var spec: Result<GenFuncSpec, Errs>;
    var keyFuncName := funcName;
    if funcName == "DeleteBy" {
      if |args| != 1 {
        return Err(["DeleteBy must have 1 parameters"]);
      }
      spec := ParseGenFuncArgs(args[0], "", "", "", fields);
    } else if funcName == "UpdateById" {
      if |args| != 2 {
        return Err(["UpdateById must have 2 parameters"]);
      }
      spec := ParseGenFuncArgs("", args[0], "", args[1], fields);
    } else if HasPrefix(funcName, "UpdateBy") {
      if |args| != 4 {
        return Err([funcName + " must have 4 parameters"]);
      }
      keyFuncName := "UpdateBy";
      spec := ParseGenFuncArgs(args[0], args[1], args[2], args[3], fields);
    } else if SelectFamily(funcName) {
      if |args| != 3 {
        return Err([funcName + " must have 4 parameters"]);
      }
      keyFuncName := SelectKey(funcName);
      spec := ParseGenFuncArgs(args[0], args[1], args[2], "", fields);
    } else {
      return Err(["unsupported function " + funcName]);
    }
    if spec.Err? {
      return Err(spec.error + ["parse " + funcName + " failed"]);
    }
    r := Ok((funcName, spec.value.(funcName := funcName, keyFuncName := keyFuncName)));
  }

  /** The loop that adds the default functions, replacing any entry of the same name. */
  method AddDefaults(m0: map<string, GenFuncSpec>, hasPrimaryKey: bool) returns (m: map<string, GenFuncSpec>)
    ensures m == WithDefaults(m0, DefaultNames(hasPrimaryKey))
  {
    var defaultGen := DefaultGenFuncs;
    if !hasPrimaryKey {
      defaultGen := DefaultGenFuncs[..3];
    }
    m := m0;
    assert defaultGen[..0] == [];
    for i := 0 to |defaultGen|
      invariant m == WithDefaults(m0, defaultGen[..i])
    {
      assert defaultGen[..i + 1][..i] == defaultGen[..i];
      m := m[defaultGen[i] := DefaultSpec(defaultGen[i])];
    }
    assert defaultGen[..|defaultGen|] == defaultGen;
  }

  /**
   * `parseTablePropertyTag`: the table name is required; with no `gen`
   * value the defaults are generated, otherwise each declaration in turn
   * and then the defaults, which replace an entry of the same name.
   */
  method ParseTablePropertyTag(tableName: string, genTag: string, modelName: string, fields: seq<ModelField>, hasPrimaryKey: bool)
    returns (r: Result<(string, map<string, GenFuncSpec>), Errs>)
    ensures r == PropertyTag(tableName, genTag, modelName, fields, hasPrimaryKey)
  {
    if tableName == "" {
      return Err(["tableName tag is not specified, model struct is " + modelName]);
    }
    if genTag == "" {
      var res := AddDefaults(map[], hasPrimaryKey);
      return Ok((tableName, res));
    }
    var decls := Split(genTag, '|');
    var genFuncMap: map<string, GenFuncSpec> := map[];
    assert decls[..0] == [];
    for i := 0 to |decls|
      invariant GenFuncMap(decls[..i], modelName, fields, hasPrimaryKey) == Ok(genFuncMap)
    {
      assert decls[..i + 1][..i] == decls[..i];
      var entry := ParseGenFuncDecl(decls[i], modelName, fields, hasPrimaryKey);
      if entry.Err? {
        GenFuncMapErrorStays(decls, modelName, fields, hasPrimaryKey, i + 1);
        return Err(entry.error);
      }
      genFuncMap := genFuncMap[entry.value.0 := entry.value.1];
    }
    assert decls[..|decls|] == decls;
    var res := AddDefaults(genFuncMap, hasPrimaryKey);
    r := Ok((tableName, res));
  }

  /** The error of the first declarations that fail stays the error of all of them. */
  lemma {:induction false} GenFuncMapErrorStays(decls: seq<string>, modelName: string, fields: seq<ModelField>, hasPrimaryKey: bool, n: nat)
    requires n <= |decls|
    requires GenFuncMap(decls[..n], modelName, fields, hasPrimaryKey).Err?
    ensures GenFuncMap(decls, modelName, fields, hasPrimaryKey) == GenFuncMap(decls[..n], modelName, fields, hasPrimaryKey)
    decreases |decls| - n
  {
    if n < |decls| {
      assert decls[..n + 1][..n] == decls[..n];
      GenFuncMapErrorStays(decls, modelName, fields, hasPrimaryKey, n + 1);
    } else {
      assert decls[..n] == decls;
    }
  }

  /** Setting the defaults adds exactly their names, each with its argument-less spec, and keeps every other entry. */
  lemma {:induction false} WithDefaultsOf(m: map<string, GenFuncSpec>, names: seq<string>)
    ensures var r := WithDefaults(m, names);
      (forall n :: n in r <==> n in m || n in names) &&
      (forall n :: n in names ==> r[n] == DefaultSpec(n)) &&
      (forall n :: n in m && n !in names ==> r[n] == m[n])
  {
    if |names| > 0 {
      var init := names[..|names| - 1];
      WithDefaultsOf(m, init);
      assert names == init + [names[|names| - 1]];
    }
  }

  /** Whatever the tag lists, a successful parse holds every default function with its argument-less spec. */
  lemma DefaultsPresent(tableName: string, genTag: string, modelName: string, fields: seq<ModelField>, hasPrimaryKey: bool)
    requires PropertyTag(tableName, genTag, modelName, fields, hasPrimaryKey).Ok?
    ensures var (name, m) := PropertyTag(tableName, genTag, modelName, fields, hasPrimaryKey).value;
      name == tableName &&
      forall n :: n in DefaultNames(hasPrimaryKey) ==> n in m && m[n] == DefaultSpec(n)
  {
    if genTag == "" {
      WithDefaultsOf(map[], DefaultNames(hasPrimaryKey));
    } else {
      WithDefaultsOf(GenFuncMap(Split(genTag, '|'), modelName, fields, hasPrimaryKey).value, DefaultNames(hasPrimaryKey));
    }
  }

  /** Without a `gen` value exactly the defaults are generated: all eight with a primary key, the first three without. */
  lemma NoGenTag(tableName: string, modelName: string, fields: seq<ModelField>, hasPrimaryKey: bool)
    requires tableName != ""
    ensures PropertyTag(tableName, "", modelName, fields, hasPrimaryKey).Ok?
    ensures PropertyTag(tableName, "", modelName, fields, hasPrimaryKey).value.1.Keys ==
      if hasPrimaryKey then set n | n in DefaultGenFuncs else {"Add", "AddBatch", "SelectCount"}
  {
    WithDefaultsOf(map[], DefaultNames(hasPrimaryKey));
    assert DefaultGenFuncs[..3] == ["Add", "AddBatch", "SelectCount"];
  }

  /** A text without `(` is not cut. */
  lemma NoParen(s: string)
    requires '(' !in s
    ensures Cut(s, "(") == (s, "", false)
  {
    forall i | 0 <= i <= |s| - 1
      ensures !OccursAt(s, "(", i)
    {
      assert s[i..i + 1][0] == s[i];
    }
  }

  /** A trimmed name without `(` is a bare declaration. */
  lemma BareName(name: string, modelName: string, fields: seq<ModelField>, hasPrimaryKey: bool)
    requires '(' !in name
    requires name == [] || (!IsSpace(name[0]) && !IsSpace(name[|name| - 1]))
    ensures DeclSpec(name, modelName, fields, hasPrimaryKey) == BareDecl(name, modelName, hasPrimaryKey)
  {
    TrimSpaceTrimmed(name);
    NoParen(name);
  }

  /** An id-based function without arguments is refused for a model without a primary key, and accepted with one. */
  lemma IdFuncNeedsKey(name: string, modelName: string, fields: seq<ModelField>, hasPrimaryKey: bool)
    requires name in ["DeleteById", "DeleteBatchIds", "SelectById", "SelectBatchIds"]
    ensures DeclSpec(name, modelName, fields, hasPrimaryKey) ==
      if hasPrimaryKey then Ok((name, DefaultSpec(name))) else Err(NoPrimaryKey(modelName))
  {
    IdNameShape(name);
    BareName(name, modelName, fields, hasPrimaryKey);
    BareIdDecl(name, modelName, hasPrimaryKey);
  }

  /** The bare-name rule for the id-based names. */
  lemma BareIdDecl(name: string, modelName: string, hasPrimaryKey: bool)
    requires name in ["DeleteById", "DeleteBatchIds", "SelectById", "SelectBatchIds"]
    ensures BareDecl(name, modelName, hasPrimaryKey) ==
      if hasPrimaryKey then Ok((name, DefaultSpec(name))) else Err(NoPrimaryKey(modelName))
  {
    assert name !in ["Add", "AddBatch", "SelectCount", "SelectAll"];
  }

  /** The id-based names are trimmed and have no `(`. */
  lemma IdNameShape(name: string)
    requires name in ["DeleteById", "DeleteBatchIds", "SelectById", "SelectBatchIds"]
    ensures '(' !in name && !IsSpace(name[0]) && !IsSpace(name[|name| - 1])
  {
    assert name[0] in "DS" && name[|name| - 1] in "ds";
    forall i | 0 <= i < |name|
      ensures name[i] != '('
    {
    }
  }

  /** A bare name that is not one of the eight known functions is refused. */
  lemma UnknownBareName(name: string, modelName: string, fields: seq<ModelField>, hasPrimaryKey: bool)
    requires '(' !in name && name !in DefaultGenFuncs
    requires name == [] || (!IsSpace(name[0]) && !IsSpace(name[|name| - 1]))
    ensures DeclSpec(name, modelName, fields, hasPrimaryKey) == Err(["unsupported function " + name + " without args"])
  {
    BareName(name, modelName, fields, hasPrimaryKey);
  }

  /** `p` ends in "By", so a name that starts with `p` holds "By". */
  lemma FamilyHoldsBy(funcName: string, p: string)
    requires HasPrefix(funcName, p) && |p| >= 2 && p[|p| - 2..] == "By"
    ensures ContainsSub(funcName, "By")
  {
    assert funcName[|p| - 2..|p|] == p[|p| - 2..];
    ContainsAt(funcName, "By", |p| - 2);
  }

  /** The key name of a select family is the function name up to and including its first "By". */
  lemma SelectKeyOf(funcName: string)
    requires SelectFamily(funcName)
    ensures var key := SelectKey(funcName);
      HasPrefix(funcName, key) && HasSuffix(key, "By") &&
      forall j :: 0 <= j < |key| - 2 ==> !OccursAt(funcName, "By", j)
  {
    SelectFamilyHoldsBy(funcName);
    var index := IndexOfSub(funcName, "By");
    var key := funcName[..index + 2];
    assert SelectKey(funcName) == key;
    assert key[index..] == funcName[index..index + 2];
  }

  /** Every select-family name holds "By". */
  lemma SelectFamilyHoldsBy(funcName: string)
    requires SelectFamily(funcName)
    ensures ContainsSub(funcName, "By")
  {
    if HasPrefix(funcName, "SelectOneBy") {
      FamilyHoldsBy(funcName, "SelectOneBy");
    } else if HasPrefix(funcName, "SelectListBy") {
      FamilyHoldsBy(funcName, "SelectListBy");
    } else if HasPrefix(funcName, "SelectCountBy") {
      FamilyHoldsBy(funcName, "SelectCountBy");
    } else {
      FamilyHoldsBy(funcName, "SelectPageBy");
    }
  }

  /** A select family parsed with arguments gets its family's key name. */
  lemma SelectDeclKey(funcName: string, args: seq<string>, fields: seq<ModelField>)
    requires SelectFamily(funcName) && ArgsDecl(funcName, args, fields).Ok?
    ensures ArgsDecl(funcName, args, fields).value.1.keyFuncName == SelectKey(funcName)
    ensures |args| == 3
  {
    SelectNotOther(funcName);
  }

  /** A select family name is none of the names matched before it. */
  lemma SelectNotOther(funcName: string)
    requires SelectFamily(funcName)
    ensures funcName != "DeleteBy" && funcName != "UpdateById" && !HasPrefix(funcName, "UpdateBy")
  {
    assert funcName[0] == 'S';
  }

  /** Every `UpdateBy…` function other than `UpdateById` takes four arguments and has the key name `UpdateBy`. */
  lemma UpdateByKeyName(funcName: string, args: seq<string>, fields: seq<ModelField>)
    requires HasPrefix(funcName, "UpdateBy") && funcName != "UpdateById"
    requires ArgsDecl(funcName, args, fields).Ok?
    ensures ArgsDecl(funcName, args, fields).value.1.keyFuncName == "UpdateBy"
    ensures |args| == 4
  {
    ArgsDeclUpdateBy(funcName, args, fields);
    if |args| == 4 {
      WithNamesKeys(funcName, "UpdateBy", GenFuncArgs(args[0], args[1], args[2], args[3], fields));
    }
  }

  /** The `UpdateBy…` branch of `ArgsDecl`. */
  lemma ArgsDeclUpdateBy(funcName: string, args: seq<string>, fields: seq<ModelField>)
    requires HasPrefix(funcName, "UpdateBy") && funcName != "UpdateById"
    ensures ArgsDecl(funcName, args, fields) ==
      if |args| != 4 then Err([funcName + " must have 4 parameters"])
      else WithNames(funcName, "UpdateBy", GenFuncArgs(args[0], args[1], args[2], args[3], fields))
  {
    assert funcName[0] == 'U';
  }

  /** A named spec keeps both names it was given. */
  lemma WithNamesKeys(funcName: string, keyFuncName: string, r: Result<GenFuncSpec, Errs>)
    requires WithNames(funcName, keyFuncName, r).Ok?
    ensures WithNames(funcName, keyFuncName, r).value.0 == funcName
    ensures WithNames(funcName, keyFuncName, r).value.1.funcName == funcName
    ensures WithNames(funcName, keyFuncName, r).value.1.keyFuncName == keyFuncName
  {
  }

  /** A parsed declaration with arguments is recorded under its own function name. */
  lemma ArgsNamed(funcName: string, args: seq<string>, fields: seq<ModelField>)
    requires ArgsDecl(funcName, args, fields).Ok?
    ensures var (name, spec) := ArgsDecl(funcName, args, fields).value;
      name == funcName && spec.funcName == funcName
  {
    if funcName == "DeleteBy" {
      WithNamesKeys(funcName, funcName, GenFuncArgs(args[0], "", "", "", fields));
    } else if funcName == "UpdateById" {
      WithNamesKeys(funcName, funcName, GenFuncArgs("", args[0], "", args[1], fields));
    } else if HasPrefix(funcName, "UpdateBy") {
      WithNamesKeys(funcName, "UpdateBy", GenFuncArgs(args[0], args[1], args[2], args[3], fields));
    } else {
      WithNamesKeys(funcName, SelectKey(funcName), GenFuncArgs(args[0], args[1], args[2], "", fields));
    }
  }

  /** A parsed declaration is recorded under its own function name, the text before `(`. */
  lemma DeclNamed(decl: string, modelName: string, fields: seq<ModelField>, hasPrimaryKey: bool)
    requires DeclSpec(decl, modelName, fields, hasPrimaryKey).Ok?
    ensures var (funcName, spec) := DeclSpec(decl, modelName, fields, hasPrimaryKey).value;
      spec.funcName == funcName && funcName == Cut(TrimSpace(decl), "(").0
  {
    var c := Cut(TrimSpace(decl), "(");
    if c.2 {
      DeclSpecArgs(decl, c.0, c.1, modelName, fields, hasPrimaryKey);
      ArgsNamed(c.0, DeclArgs(c.1), fields);
    } else {
      DeclSpecBare(decl, c.0, c.1, modelName, fields, hasPrimaryKey);
      BareNamed(c.0, modelName, hasPrimaryKey);
    }
  }

  /** A declaration with `(` is parsed by its arguments. */
  lemma DeclSpecArgs(decl: string, funcName: string, argStr: string, modelName: string, fields: seq<ModelField>, hasPrimaryKey: bool)
    requires Cut(TrimSpace(decl), "(") == (funcName, argStr, true)
    ensures DeclSpec(decl, modelName, fields, hasPrimaryKey) == ArgsDecl(funcName, DeclArgs(argStr), fields)
  {
  }

  /** A declaration without `(` is a bare name. */
  lemma DeclSpecBare(decl: string, funcName: string, argStr: string, modelName: string, fields: seq<ModelField>, hasPrimaryKey: bool)
    requires Cut(TrimSpace(decl), "(") == (funcName, argStr, false)
    ensures DeclSpec(decl, modelName, fields, hasPrimaryKey) == BareDecl(funcName, modelName, hasPrimaryKey)
  {
  }

  /** An accepted bare name is recorded under itself. */
  lemma BareNamed(funcName: string, modelName: string, hasPrimaryKey: bool)
    requires BareDecl(funcName, modelName, hasPrimaryKey).Ok?
    ensures BareDecl(funcName, modelName, hasPrimaryKey).value.0 == funcName
    ensures BareDecl(funcName, modelName, hasPrimaryKey).value.1.funcName == funcName
  {
  }

  /** A text cut at its first `(`. */
  lemma CutAtParen(head: string, tail: string)
    requires '(' !in head
    ensures Cut(head + "(" + tail, "(") == (head, tail, true)
  {
    var t := head + "(" + tail;
    assert OccursAt(t, "(", |head|);
    forall j | 0 <= j < |head|
      ensures !OccursAt(t, "(", j)
    {
      assert t[j..j + 1][0] == head[j];
    }
    assert t[..|head|] == head && t[|head| + 1..] == tail;
  }

  /** The first declaration of a generated `gen` value: the three base functions run together before the first `|`. */
  const GeneratedHead: string := "Add,BatchAdd,SelectPage("

  /** The function name of that declaration. */
  const GeneratedName: string := "Add,BatchAdd,SelectPage"

  /** A declaration `name(` whose name starts outside the known families is refused. */
  lemma OpenDeclRejected(name: string, modelName: string, fields: seq<ModelField>, hasPrimaryKey: bool)
    requires '(' !in name && |name| > 0 && name[0] !in "DUS" && !IsSpace(name[0])
    ensures DeclSpec(name + "(", modelName, fields, hasPrimaryKey) == Err(["unsupported function " + name])
  {
    assert name + "(" + "" == name + "(";
    ParenDecl(name, "", modelName, fields, hasPrimaryKey);
    StartsOutside(name);
    UnknownArgsName(name, DeclArgs(""), fields);
  }

  /** The run-together name is such a name. */
  lemma GeneratedNameShape()
    ensures GeneratedHead == GeneratedName + "("
    ensures '(' !in GeneratedName && '|' !in GeneratedHead
    ensures |GeneratedName| > 0 && GeneratedName[0] !in "DUS" && !IsSpace(GeneratedName[0])
  {
  }

  /** A trimmed declaration with a `(` is parsed by its arguments. */
  lemma ParenDecl(head: string, tail: string, modelName: string, fields: seq<ModelField>, hasPrimaryKey: bool)
    requires '(' !in head
    requires head == [] || !IsSpace(head[0])
    requires tail == [] || !IsSpace(tail[|tail| - 1])
    ensures DeclSpec(head + "(" + tail, modelName, fields, hasPrimaryKey) == ArgsDecl(head, DeclArgs(tail), fields)
  {
    var d := head + "(" + tail;
    assert d[0] == if head == [] then '(' else head[0];
    assert d[|d| - 1] == if tail == [] then '(' else tail[|tail| - 1];
    TrimSpaceTrimmed(d);
    CutAtParen(head, tail);
  }

  /** A name that starts with none of `D`, `U`, `S` is in no family that takes arguments. */
  lemma StartsOutside(funcName: string)
    requires |funcName| > 0 && funcName[0] !in "DUS"
    ensures funcName != "DeleteBy" && funcName != "UpdateById" && !HasPrefix(funcName, "UpdateBy") && !SelectFamily(funcName)
  {
    if |funcName| >= 8 {
      assert funcName[..8][0] == funcName[0];
    }
    if |funcName| >= 11 {
      assert funcName[..11][0] == funcName[0];
    }
    if |funcName| >= 12 {
      assert funcName[..12][0] == funcName[0];
    }
    if |funcName| >= 13 {
      assert funcName[..13][0] == funcName[0];
    }
  }

  /** A name with arguments outside the known families is refused. */
  lemma UnknownArgsName(funcName: string, args: seq<string>, fields: seq<ModelField>)
    requires funcName != "DeleteBy" && funcName != "UpdateById" && !HasPrefix(funcName, "UpdateBy") && !SelectFamily(funcName)
    ensures ArgsDecl(funcName, args, fields) == Err(["unsupported function " + funcName])
  {
  }

  /**
   * The `gen` value the model generator writes (its function list joined
   * with commas) is refused by this parser: the `|` inside
   * `SelectPage(|true)` splits it, and the run-together first part is an
   * unknown function.
   */
  lemma GeneratedTagRejected(tableName: string, idFuncs: seq<string>, modelName: string, fields: seq<ModelField>, hasPrimaryKey: bool)
    requires tableName != ""
    requires idFuncs == [] || idFuncs == ModelGenerator.IdGenFuncs
    ensures PropertyTag(tableName, Join(ModelGenerator.BaseGenFuncs + idFuncs, ","), modelName, fields, hasPrimaryKey) ==
      Err(["unsupported function " + GeneratedName])
  {
    var genTag := Join(ModelGenerator.BaseGenFuncs + idFuncs, ",");
    GeneratedSplit(idFuncs);
    FirstDeclStops(Split(genTag, '|'), modelName, fields, hasPrimaryKey);
  }

  /** The generated `gen` value is not empty and its first `|`-separated part is the run-together head. */
  lemma GeneratedSplit(idFuncs: seq<string>)
    requires idFuncs == [] || idFuncs == ModelGenerator.IdGenFuncs
    ensures var genTag := Join(ModelGenerator.BaseGenFuncs + idFuncs, ",");
      genTag != "" && |Split(genTag, '|')| >= 1 && Split(genTag, '|')[0] == GeneratedHead
  {
    GeneratedJoin(idFuncs);
    GeneratedNameShape();
    SplitConcat(GeneratedHead, GeneratedRest(idFuncs), '|');
    SplitWithout(GeneratedHead, '|');
  }

  /** Declarations led by the run-together head stop at it. */
  lemma FirstDeclStops(decls: seq<string>, modelName: string, fields: seq<ModelField>, hasPrimaryKey: bool)
    requires |decls| >= 1 && decls[0] == GeneratedHead
    ensures GenFuncMap(decls, modelName, fields, hasPrimaryKey) == Err(["unsupported function " + GeneratedName])
  {
    GeneratedNameShape();
    assert decls[..1] == [GeneratedHead];
    OpenDeclRejected(GeneratedName, modelName, fields, hasPrimaryKey);
    assert decls[..1][..0] == [];
    GenFuncMapErrorStays(decls, modelName, fields, hasPrimaryKey, 1);
  }

  /** What follows the first `|` of a generated `gen` value. */
  function GeneratedRest(idFuncs: seq<string>): string
  {
    "true)" + if idFuncs == [] then "" else "," + Join(idFuncs, ",")
  }

  /** `Join` of a list with a first element. */
  lemma JoinCons(x: string, rest: seq<string>, sep: string)
    requires |rest| > 0
    ensures Join([x] + rest, sep) == x + sep + Join(rest, sep)
  {
    assert ([x] + rest)[1..] == rest;
  }

  /** The generated `gen` value is the head, a `|`, and the rest. */
  lemma GeneratedJoin(idFuncs: seq<string>)
    requires idFuncs == [] || idFuncs == ModelGenerator.IdGenFuncs
    ensures Join(ModelGenerator.BaseGenFuncs + idFuncs, ",") == GeneratedHead + "|" + GeneratedRest(idFuncs)
  {
    var tail := ["SelectPage(|true)"] + idFuncs;
    assert ModelGenerator.BaseGenFuncs + idFuncs == ["Add"] + (["BatchAdd"] + tail);
    JoinCons("Add", ["BatchAdd"] + tail, ",");
    JoinCons("BatchAdd", tail, ",");
    var more := if idFuncs == [] then "" else "," + Join(idFuncs, ",");
    TailJoin(idFuncs);
    Assemble(more);
  }

  /** The page function followed by the id-based ones. */
  lemma TailJoin(idFuncs: seq<string>)
    ensures Join(["SelectPage(|true)"] + idFuncs, ",") ==
      "SelectPage(|true)" + if idFuncs == [] then "" else "," + Join(idFuncs, ",")
  {
    if idFuncs != [] {
      JoinCons("SelectPage(|true)", idFuncs, ",");
    }
  }

  /** The joined pieces regrouped around the first `|`. */
  lemma Assemble(more: string)
    ensures "Add" + "," + ("BatchAdd" + "," + ("SelectPage(|true)" + more)) == GeneratedHead + "|" + ("true)" + more)
  {
    LiteralPieces();
  }

  /** The literal pieces of the generated value. */
  lemma LiteralPieces()
    ensures "Add" + "," + "BatchAdd" + "," + "SelectPage(" == GeneratedHead
    ensures "SelectPage(|true)" == "SelectPage(" + "|" + "true)"
  {
  }
}
