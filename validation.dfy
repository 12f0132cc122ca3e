/**
 * Input validation (src/utils/validation.py): file-path checks, header
 * sanitising and validation of tool arguments against a small subset of
 * JSON Schema.
 */
module Validation {
  import opened Wrappers
  import opened PyValues
  import opened Strings

  /** The code every validation error carries. */
  const BAD_REQUEST: string := "BAD_REQUEST"

  const PATH_TRAVERSAL_MESSAGE: string := "Invalid file path: Path traversal not allowed"
  const ABSOLUTE_PATH_MESSAGE: string := "Invalid file path: Absolute paths not allowed"

  /** The error this module raises: a message and a string code. */
  datatype ValidationError = ValidationError(message: string, code: string)

  const PathTraversal: ValidationError := ValidationError(PATH_TRAVERSAL_MESSAGE, BAD_REQUEST)
  const AbsolutePath: ValidationError := ValidationError(ABSOLUTE_PATH_MESSAGE, BAD_REQUEST)

  // ---------------------------------------------------------------- file paths

  /** Every backslash becomes a forward slash. */
  function NormalizePath(path: string): (n: string)
    ensures |n| == |path|
    ensures forall i :: 0 <= i < |n| ==> n[i] != '\\'
  {
    ReplaceChar(path, '\\', '/')
  }

  predicate IsAsciiLetter(c: char) {
    'a' <= c <= 'z' || 'A' <= c <= 'Z'
  }

  /** Matches `^[a-zA-Z]:`, a Windows drive prefix. */
  predicate HasDrivePrefix(s: string) {
    |s| >= 2 && IsAsciiLetter(s[0]) && s[1] == ':'
  }

  /**
   * `validate_file_path(path)`: traversal is checked first, then absolute
   * paths. A path is rejected for traversal exactly when its normalised form
   * contains `../`; otherwise it is rejected as absolute exactly when it
   * starts with `/` or `\`, or with an ASCII letter and a colon; every other
   * path is accepted.
   */
  function ValidateFilePath(path: string): (r: Outcome<ValidationError>)
    ensures r == Fail(PathTraversal) <==> Contains(NormalizePath(path), "../")
    ensures r == Fail(AbsolutePath) <==>
      !Contains(NormalizePath(path), "../") &&
      ((|path| >= 1 && (path[0] == '/' || path[0] == '\\')) || HasDrivePrefix(path))
    ensures r == Pass <==>
      !Contains(NormalizePath(path), "../") &&
      !(|path| >= 1 && (path[0] == '/' || path[0] == '\\')) && !HasDrivePrefix(path)
  {
    var normalized := NormalizePath(path);
    BackslashTraversalTestIsDead(path);
    assert StartsWith(normalized, "/") <==> |path| >= 1 && (path[0] == '/' || path[0] == '\\');
    assert HasDrivePrefix(normalized) <==> HasDrivePrefix(path);
    if Contains(normalized, "../") || Contains(normalized, "..\\") then Fail(PathTraversal)
    else if StartsWith(normalized, "/") || HasDrivePrefix(normalized) then Fail(AbsolutePath)
    else Pass
  }

  /** The `"..\\"` test can never fire: a normalised path has no backslash. */
  lemma BackslashTraversalTestIsDead(path: string)
    ensures !Contains(NormalizePath(path), "..\\")
  {
    var n := NormalizePath(path);
    forall i | 0 <= i <= |n| - 3 ensures !OccursAt(n, "..\\", i) {
      assert n[i..i + 3][2] == n[i + 2] != '\\';
    }
  }

  /** `..\x` is traversal once normalised. */
  lemma BackslashDotDotRejected()
    ensures ValidateFilePath("..\\x") == Fail(PathTraversal)
  {
    assert NormalizePath("..\\x") == "../x";
    assert OccursAt("../x", "../", 0);
  }

  /** A trailing `a/..` has no `../` and is accepted. */
  lemma TrailingDotDotAccepted()
    ensures ValidateFilePath("a/..") == Pass
  {
    var n := NormalizePath("a/..");
    assert n == "a/..";
    BackslashTraversalTestIsDead("a/..");
    assert !OccursAt(n, "../", 0) && !OccursAt(n, "../", 1);
  }

  /** `/../x` fails the traversal test before the absolute-path test. */
  lemma TraversalCheckedFirst()
    ensures ValidateFilePath("/../x") == Fail(PathTraversal)
  {
    assert NormalizePath("/../x") == "/../x";
    assert OccursAt("/../x", "../", 1);
  }

  // ---------------------------------------------------------------- headers

  predicate IsWordChar(c: char) {
    'a' <= c <= 'z' || 'A' <= c <= 'Z' || '0' <= c <= '9' || c == '_'
  }

  /** `\s` on the ASCII range: space, `\t\n\v\f\r` and the separators `\x1c`-`\x1f`. */
  predicate IsSpaceChar(c: char) {
    c == ' ' || 9 <= c as int <= 13 || 28 <= c as int <= 31
  }

  /** The characters `sanitize_header` keeps: `[\w\s\-._~:/?#\[\]@!$&'()*+,;=]`. */
  predicate IsHeaderChar(c: char) {
    IsWordChar(c) || IsSpaceChar(c) || c in "-._~:/?#[]@!$&'()*+,;="
  }

  /** The characters of `s` that satisfy `keep`, in order. */
  function Filter(s: string, keep: char -> bool): (r: string)
    ensures |r| <= |s|
    ensures forall i :: 0 <= i < |r| ==> keep(r[i])
    ensures IsSubsequence(r, s)
  {
    if s == [] then []
    else if keep(s[0]) then [s[0]] + Filter(s[1..], keep)
    else Filter(s[1..], keep)
  }

  /** `r` can be obtained from `s` by deleting characters. */
  predicate IsSubsequence(r: string, s: string) {
    if r == [] then true
    else if s == [] then false
    else if r[0] == s[0] then IsSubsequence(r[1..], s[1..])
    else IsSubsequence(r, s[1..])
  }

  /** Filtering distributes over concatenation. */
  lemma {:induction false} FilterConcat(a: string, b: string, keep: char -> bool)
    ensures Filter(a + b, keep) == Filter(a, keep) + Filter(b, keep)
  {
    if a == [] {
      assert a + b == b;
    } else {
      assert (a + b)[0] == a[0] && (a + b)[1..] == a[1..] + b;
      FilterConcat(a[1..], b, keep);
    }
  }

  /** A string made only of kept characters is left as it is. */
  lemma {:induction false} FilterKeepsKept(s: string, keep: char -> bool)
    requires forall i :: 0 <= i < |s| ==> keep(s[i])
    ensures Filter(s, keep) == s
  {
    if s != [] {
      FilterKeepsKept(s[1..], keep);
    }
  }

  /** Filtering twice is filtering once. */
  lemma FilterIdempotent(s: string, keep: char -> bool)
    ensures Filter(Filter(s, keep), keep) == Filter(s, keep)
  {
    FilterKeepsKept(Filter(s, keep), keep);
  }

  /** `sanitize_header(value)`: drops every character outside the allowed class. */
  function SanitizeHeader(value: string): (r: string)
    ensures |r| <= |value| && IsSubsequence(r, value)
    ensures forall i :: 0 <= i < |r| ==> IsHeaderChar(r[i])
  {
    Filter(value, IsHeaderChar)
  }

  /**
   * Sanitising keeps exactly the allowed characters in order: it works
   * character by character, keeps an allowed one and drops any other, and
   * is idempotent.
   */
  lemma SanitizeHeaderCharacterwise(a: string, b: string, c: char)
    ensures SanitizeHeader(a + b) == SanitizeHeader(a) + SanitizeHeader(b)
    ensures SanitizeHeader([c]) == if IsHeaderChar(c) then [c] else []
    ensures SanitizeHeader(SanitizeHeader(a)) == SanitizeHeader(a)
  {
    FilterConcat(a, b, IsHeaderChar);
    FilterIdempotent(a, IsHeaderChar);
  }

  /** Carriage return and line feed are `\s`, so they survive sanitising. */
  lemma SanitizeHeaderKeepsLineBreaks()
    ensures SanitizeHeader("a\r\nb") == "a\r\nb"
  {
    assert IsHeaderChar('a') && IsHeaderChar('\r') && IsHeaderChar('\n') && IsHeaderChar('b');
    FilterKeepsKept("a\r\nb", IsHeaderChar);
  }

  /** The allowed class without the control characters among `\s`: only space and tab remain. */
  predicate IsSafeHeaderChar(c: char) {
    IsHeaderChar(c) && (c == ' ' || c == '\t' || !IsSpaceChar(c))
  }

  /** A sanitiser that also drops line breaks, so its output cannot start a new header line. */
  function SanitizeHeaderSafe(value: string): (r: string)
    ensures |r| <= |value| && IsSubsequence(r, value)
    ensures forall i :: 0 <= i < |r| ==> IsHeaderChar(r[i]) && r[i] != '\r' && r[i] != '\n'
  {
    Filter(value, IsSafeHeaderChar)
  }

  /** The safe sanitiser differs from the source's only on control whitespace, and is idempotent. */
  lemma SanitizeHeaderSafeAgrees(value: string)
    requires forall i :: 0 <= i < |value| ==> !IsSpaceChar(value[i]) || value[i] == ' ' || value[i] == '\t'
    ensures SanitizeHeaderSafe(value) == SanitizeHeader(value)
    ensures SanitizeHeaderSafe(SanitizeHeaderSafe(value)) == SanitizeHeaderSafe(value)
  {
    FilterIdempotent(value, IsSafeHeaderChar);
    FilterSameOn(value, IsSafeHeaderChar, IsHeaderChar);
  }

  /** Filters that agree on every character of `s` agree on `s`. */
  lemma {:induction false} FilterSameOn(s: string, p: char -> bool, q: char -> bool)
    requires forall i :: 0 <= i < |s| ==> p(s[i]) == q(s[i])
    ensures Filter(s, p) == Filter(s, q)
  {
    if s != [] {
      FilterSameOn(s[1..], p, q);
    }
  }

  // ---------------------------------------------------------------- tool arguments

  /**
   * The part of a property's schema the validator reads: `type`, `enum` and
   * `format`, and how many other keys (such as `description`) it has.
   */
  datatype PropSchema = PropSchema(typ: Option<Value>, enumValues: Option<seq<Value>>, format: Option<Value>, otherKeys: nat) {
    /** An empty schema dictionary is false in Python. */
    predicate IsEmpty() {
      typ.None? && enumValues.None? && format.None? && otherKeys == 0
    }
  }

  /** A tool's input schema: `required` (default `[]`) and `properties` (default `{}`). */
  datatype ToolSchema = ToolSchema(required: seq<string>, properties: seq<(string, PropSchema)>)

  /** `properties.get(key)`. */
  function PropertyLookup(props: seq<(string, PropSchema)>, key: string): Option<PropSchema> {
    if props == [] then None
    else if props[0].0 == key then Some(props[0].1)
    else PropertyLookup(props[1..], key)
  }

  /** One error of `validate_tool_arguments`, one constructor per message. */
  datatype ArgError =
    | NotAnObject                                   // "Arguments must be an object"
    | MissingRequiredField(field: string)           // "Missing required field: {field}"
    | UnknownField(key: string)                     // "Unknown field: {key}"
    | WrongType(key: string, expected: string)      // "Field {key} must be a(n) {expected}"
    | NotInEnum(key: string, options: seq<Value>)   // "Field {key} must be one of: ..."
    | InvalidPath(key: string, error: ValidationError) // "Field {key}: {message}"

  datatype ValidationResult = ValidationResult(valid: bool, errors: seq<ArgError>)

  /** One error per name of `required` that `args` lacks, in the order of `required`. */
  function MissingRequired(required: seq<string>, args: Entries): (r: seq<ArgError>)
    ensures |r| <= |required|
    ensures forall i :: 0 <= i < |r| ==>
      r[i].MissingRequiredField? && r[i].field in required && !HasKey(args, r[i].field)
    decreases |required|
  {
    if required == [] then []
    else
      var field := required[|required| - 1];
      MissingRequired(required[..|required| - 1], args) +
      (if HasKey(args, field) then [] else [MissingRequiredField(field)])
  }

  /** The type test of one argument: at most one error. */
  function TypeErrors(key: string, typ: Option<Value>, value: Value): seq<ArgError> {
    if typ == Some(Str("string")) && !value.Str? then [WrongType(key, "string")]
    else if typ == Some(Str("number")) && !(value.Int? || value.Bool?) then [WrongType(key, "number")]
    else if typ == Some(Str("boolean")) && !value.Bool? then [WrongType(key, "boolean")]
    else if typ == Some(Str("array")) && !value.List? then [WrongType(key, "array")]
    else []
  }

  function EnumErrors(key: string, enumValues: Option<seq<Value>>, value: Value): seq<ArgError> {
    if enumValues.Some? && !In(value, enumValues.value) then [NotInEnum(key, enumValues.value)] else []
  }

  function PathErrors(key: string, format: Option<Value>, value: Value): seq<ArgError> {
    if format == Some(Str("path")) && value.Str? then
      match ValidateFilePath(value.s)
      case Fail(e) => [InvalidPath(key, e)]
      case Pass => []
    else []
  }

  /** The errors of one argument `key: value`: at most three, each naming that key. */
  function EntryErrors(schema: ToolSchema, key: string, value: Value): (r: seq<ArgError>)
    ensures |r| <= 3
    ensures forall i :: 0 <= i < |r| ==> !r[i].NotAnObject? && !r[i].MissingRequiredField? && r[i].key == key
  {
    var prop := PropertyLookup(schema.properties, key);
    if prop.None? || prop.value.IsEmpty() then [UnknownField(key)]
    else if value.Null? && key !in schema.required then []
    else
      TypeErrors(key, prop.value.typ, value) +
      EnumErrors(key, prop.value.enumValues, value) +
      PathErrors(key, prop.value.format, value)
  }

  /** The errors of all arguments, argument by argument in insertion order. */
  function ArgumentErrors(schema: ToolSchema, args: Entries): seq<ArgError>
    decreases |args|
  {
    if args == [] then []
    else
      var (key, value) := args[|args| - 1];
      ArgumentErrors(schema, args[..|args| - 1]) + EntryErrors(schema, key, value)
  }

  /**
   * All errors of `validate_tool_arguments(args, schema)`. Arguments that are
   * not a dictionary give exactly one error; otherwise there is no error
   * exactly when every required name is present and every argument passes
   * its checks.
   */
  function ToolArgumentErrors(args: Value, schema: ToolSchema): (r: seq<ArgError>)
    ensures !args.Dict? ==> r == [NotAnObject]
    ensures r == [] <==>
      args.Dict? &&
      (forall f :: f in schema.required ==> HasKey(args.entries, f)) &&
      (forall i :: 0 <= i < |args.entries| ==> EntryErrors(schema, args.entries[i].0, args.entries[i].1) == [])
  {
    if !args.Dict? then [NotAnObject]
    else
      MissingRequiredEmptyIff(schema.required, args.entries);
      ArgumentErrorsEmptyIff(schema, args.entries);
      MissingRequired(schema.required, args.entries) + ArgumentErrors(schema, args.entries)
  }

  /** `MissingRequired` reports a field exactly when it is required and absent. */
  lemma {:induction false} MissingRequiredIff(required: seq<string>, args: Entries, field: string)
    ensures MissingRequiredField(field) in MissingRequired(required, args) <==> field in required && !HasKey(args, field)
    decreases |required|
  {
    if required != [] {
      var init := required[..|required| - 1];
      MissingRequiredIff(init, args, field);
      assert required == init + [required[|required| - 1]];
    }
  }

  /** Argument checks never report a missing field. */
  lemma {:induction false} ArgumentErrorsNotMissing(schema: ToolSchema, args: Entries)
    ensures forall e :: e in ArgumentErrors(schema, args) ==> !e.MissingRequiredField?
    decreases |args|
  {
    if args != [] {
      ArgumentErrorsNotMissing(schema, args[..|args| - 1]);
    }
  }

  /**
   * Missing-field errors come first and are reported exactly for the
   * required names the arguments lack; the per-argument errors follow.
   */
  lemma MissingFieldsFirst(args: Entries, schema: ToolSchema, field: string)
    ensures var errors := ToolArgumentErrors(Dict(args), schema);
      var m := |MissingRequired(schema.required, args)|;
      && (forall i :: 0 <= i < |errors| ==> (errors[i].MissingRequiredField? <==> i < m))
      && (MissingRequiredField(field) in errors <==> field in schema.required && !HasKey(args, field))
  {
    var missing := MissingRequired(schema.required, args);
    var rest := ArgumentErrors(schema, args);
    MissingRequiredIff(schema.required, args, field);
    ArgumentErrorsNotMissing(schema, args);
    var errors := missing + rest;
    forall i | 0 <= i < |errors| ensures errors[i].MissingRequiredField? <==> i < |missing| {
      if i < |missing| {
        assert errors[i] == missing[i] && missing[i] in missing;
      } else {
        assert errors[i] == rest[i - |missing|] && rest[i - |missing|] in rest;
      }
    }
  }

  /** An argument the schema does not describe gets one error and nothing else. */
  lemma UnknownFieldOnlyError(schema: ToolSchema, key: string, value: Value)
    requires PropertyLookup(schema.properties, key).None?
    ensures EntryErrors(schema, key, value) == [UnknownField(key)]
  {
  }

  /** `None` for an optional, known field is not checked. */
  lemma NullOptionalSkipped(schema: ToolSchema, key: string)
    requires PropertyLookup(schema.properties, key).Some?
    requires !PropertyLookup(schema.properties, key).value.IsEmpty()
    requires key !in schema.required
    ensures EntryErrors(schema, key, Null) == []
  {
  }

  /** The type, enum and path checks are independent: one argument can fail all three. */
  lemma OneArgumentSeveralErrors()
    ensures var prop := PropSchema(Some(Str("number")), Some([Str("a")]), Some(Str("path")), 0);
      var schema := ToolSchema([], [("p", prop)]);
      EntryErrors(schema, "p", Str("/x")) ==
        [WrongType("p", "number"), NotInEnum("p", [Str("a")]), InvalidPath("p", AbsolutePath)]
  {
    assert NormalizePath("/x") == "/x";
    assert !OccursAt("/x", "../", 0);
    assert !In(Str("/x"), [Str("a")]);
  }

  /** Errors of the arguments are empty exactly when every argument passes. */
  lemma {:induction false} ArgumentErrorsEmptyIff(schema: ToolSchema, args: Entries)
    ensures ArgumentErrors(schema, args) == [] <==>
      forall i :: 0 <= i < |args| ==> EntryErrors(schema, args[i].0, args[i].1) == []
    decreases |args|
  {
    if args != [] {
      var init := args[..|args| - 1];
      ArgumentErrorsEmptyIff(schema, init);
      assert forall i :: 0 <= i < |init| ==> init[i] == args[i];
    }
  }

  /** Errors of the required names are empty exactly when none is missing. */
  lemma {:induction false} MissingRequiredEmptyIff(required: seq<string>, args: Entries)
    ensures MissingRequired(required, args) == [] <==> forall f :: f in required ==> HasKey(args, f)
    decreases |required|
  {
    if required != [] {
      var init := required[..|required| - 1];
      MissingRequiredEmptyIff(init, args);
      assert required == init + [required[|required| - 1]];
    }
  }

  lemma ArgumentErrorsStep(schema: ToolSchema, args: Entries, j: nat)
    requires j < |args|
    ensures ArgumentErrors(schema, args[..j + 1]) == ArgumentErrors(schema, args[..j]) + EntryErrors(schema, args[j].0, args[j].1)
  {
    assert args[..j + 1][..j] == args[..j];
  }

  lemma AppendAssoc<T>(a: seq<T>, b: seq<T>, c: seq<T>)
    ensures (a + b) + c == a + (b + c)
  {
  }

  /** `validate_tool_arguments(args, schema)`. */
  method ValidateToolArguments(args: Value, schema: ToolSchema) returns (result: ValidationResult)
    ensures result.errors == ToolArgumentErrors(args, schema)
    ensures result.valid <==> result.errors == []
  {
    if !args.Dict? {
      return ValidationResult(false, [NotAnObject]);
    }
    var entries := args.entries;
    // Check required fields
    var errors := CheckRequired(schema.required, entries);
    ghost var missing := errors;

    // Check field types
    var j := 0;
    while j < |entries|
      invariant 0 <= j <= |entries|
      invariant errors == missing + ArgumentErrors(schema, entries[..j])
    {
      var key := entries[j].0;
      var value := entries[j].1;
      ghost var done := ArgumentErrors(schema, entries[..j]);
      ArgumentErrorsStep(schema, entries, j);
      var argErrors := CheckArgument(schema, key, value);
      AppendAssoc(missing, done, argErrors);
      errors := errors + argErrors;
      j := j + 1;
    }
    assert entries[..|entries|] == entries;
    return ValidationResult(|errors| == 0, errors);
  }

  /** The first loop of `validate_tool_arguments`: the missing required fields, in order. */
  method CheckRequired(required: seq<string>, args: Entries) returns (errors: seq<ArgError>)
    ensures errors == MissingRequired(required, args)
  {
    errors := [];
    var i := 0;
    while i < |required|
      invariant 0 <= i <= |required|
      invariant errors == MissingRequired(required[..i], args)
    {
      var field := required[i];
      assert required[..i + 1][..i] == required[..i];
      if !HasKey(args, field) {
        errors := errors + [MissingRequiredField(field)];
      }
      i := i + 1;
    }
    assert required[..|required|] == required;
  }

  /** The checks `validate_tool_arguments` makes of one argument, in order. */
  method CheckArgument(schema: ToolSchema, key: string, value: Value) returns (errors: seq<ArgError>)
    ensures errors == EntryErrors(schema, key, value)
  {
    errors := [];
    var prop := PropertyLookup(schema.properties, key);
    if prop.None? || prop.value.IsEmpty() {
      return [UnknownField(key)];
    }
    // Skip validation for undefined optional fields
    if value.Null? && key !in schema.required {
      return [];
    }
    var ps := prop.value;
    // Type validation
    if ps.typ == Some(Str("string")) && !value.Str? {
      errors := errors + [WrongType(key, "string")];
    } else if ps.typ == Some(Str("number")) && !(value.Int? || value.Bool?) {
      errors := errors + [WrongType(key, "number")];
    } else if ps.typ == Some(Str("boolean")) && !value.Bool? {
      errors := errors + [WrongType(key, "boolean")];
    } else if ps.typ == Some(Str("array")) && !value.List? {
      errors := errors + [WrongType(key, "array")];
    }
    assert errors == TypeErrors(key, ps.typ, value);
    // Enum validation
    if ps.enumValues.Some? && !In(value, ps.enumValues.value) {
      errors := errors + [NotInEnum(key, ps.enumValues.value)];
    }
    assert errors == TypeErrors(key, ps.typ, value) + EnumErrors(key, ps.enumValues, value);
    // Format validation for paths
    if ps.format == Some(Str("path")) && value.Str? {
      var outcome := ValidateFilePath(value.s);
      if outcome.Fail? {
        errors := errors + [InvalidPath(key, outcome.error)];
      }
    }
  }
}
