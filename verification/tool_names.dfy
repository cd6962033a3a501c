/**
  `_resolve_tool_name`: maps a caller-supplied tool identifier to the name the
  tool table knows. A namespace before the first `.` is dropped when it is one of
  the server's own aliases; an undotted name loses a legacy `qdrant_` prefix.
 */
module ToolNames {
  import opened Results
  import opened Json
  import opened Text

  /** Namespaces under which callers may address this server's tools. */
  const AliasNamespaces: set<string> := {"qdrant", "qdrant-rag", "qdrant-rag-mcp"}

  /** Legacy prefix stripped from undotted names. */
  const LegacyPrefix := "qdrant_"

  /** Why a raw name could not be resolved; each escapes the JSON-RPC handler as an exception. */
  datatype NameFault =
    | MissingToolName                 // `ValueError("Missing tool name")` for a falsy name
    | ToolNameNotString(kind: string) // a truthy non-string name fails on `in` / `split` / `startswith`

  /** Position of the first `.` in `s`, if any. */
  function FirstDot(s: string): (r: Option<nat>)
    ensures r.None? <==> '.' !in s
    ensures r.Some? ==> r.value < |s| && s[r.value] == '.' && '.' !in s[..r.value]
  {
    if |s| == 0 then None
    else if s[0] == '.' then Some(0)
    else
      match FirstDot(s[1..])
      case None => None
      case Some(k) =>
        assert s[..k + 1] == [s[0]] + s[1..][..k];
        Some(k + 1)
  }

  /** Resolution of a non-empty string name: the four cases of `_resolve_tool_name`. */
  function ResolveName(raw: string): (name: string)
    requires raw != ""
    ensures FirstDot(raw).Some? && raw[..FirstDot(raw).value] in AliasNamespaces ==>
              name == raw[FirstDot(raw).value + 1..]
    ensures FirstDot(raw).Some? && raw[..FirstDot(raw).value] !in AliasNamespaces ==> name == raw
    ensures '.' !in raw && StartsWith(raw, LegacyPrefix) ==> name == raw[|LegacyPrefix|..]
    ensures '.' !in raw && !StartsWith(raw, LegacyPrefix) ==> name == raw
  {
    match FirstDot(raw)
    case Some(k) =>
      if raw[..k] in AliasNamespaces then raw[k + 1..] else raw
    case None =>
      if StartsWith(raw, LegacyPrefix) then raw[|LegacyPrefix|..] else raw
  }

  /** The dotted cases stated through any position of a first `.`. */
  lemma ResolveDotted(raw: string, k: nat)
    requires k < |raw| && raw[k] == '.' && forall i :: 0 <= i < k ==> raw[i] != '.'
    ensures ResolveName(raw) == (if raw[..k] in AliasNamespaces then raw[k + 1..] else raw)
  {
    assert '.' !in raw[..k] by {
      assert forall i :: 0 <= i < k ==> raw[..k][i] == raw[i];
    }
    FirstDotUnique(raw, FirstDot(raw).value);
  }

  /** Any `.` with no `.` before it is the one `FirstDot` finds. */
  lemma FirstDotUnique(s: string, k: nat)
    requires FirstDot(s) == Some(k)
    ensures forall j :: 0 <= j < |s| && s[j] == '.' && '.' !in s[..j] ==> j == k
  {
    forall j | 0 <= j < |s| && s[j] == '.' && '.' !in s[..j]
      ensures j == k
    {
      assert forall i :: 0 <= i < k ==> s[..k][i] == s[i];
      assert forall i :: 0 <= i < j ==> s[..j][i] == s[i];
    }
  }

  /** `_resolve_tool_name` applied to whatever `params.get("name")` returned. */
  function ResolveToolName(raw: Json): (r: Result<string, NameFault>)
    ensures r == Err(MissingToolName) <==> !IsTruthy(raw)
    ensures r.Ok? <==> raw.Str? && raw.s != ""
    ensures r.Ok? ==> r.value == ResolveName(raw.s)
  {
    if !IsTruthy(raw) then Err(MissingToolName)
    else if !raw.Str? then Err(ToolNameNotString(TypeName(raw)))
    else Ok(ResolveName(raw.s))
  }

  /** A name with no `.` and no legacy prefix is already canonical. */
  lemma CanonicalNameIsFixed(raw: string)
    requires raw != "" && '.' !in raw && !StartsWith(raw, LegacyPrefix)
    ensures ResolveToolName(Str(raw)) == Ok(raw)
  {
  }

  /** An aliased namespace is dropped. */
  lemma AliasNamespaceDropped()
    ensures ResolveToolName(Str("qdrant.qdrant-store")) == Ok("qdrant-store")
  {
    var a := "qdrant.qdrant-store";
    assert a[..6] == "qdrant" && a[7..] == "qdrant-store";
    ResolveDotted(a, 6);
  }

  /** An unknown namespace keeps the name whole. */
  lemma UnknownNamespaceKept()
    ensures ResolveToolName(Str("unknown-ns.foo")) == Ok("unknown-ns.foo")
  {
    var a := "unknown-ns.foo";
    assert a[..10] == "unknown-ns";
    assert a[..10] !in AliasNamespaces;
    ResolveDotted(a, 10);
  }

  /** A dotted name keeps a legacy prefix: the prefix rule applies only to undotted names. */
  lemma DottedNameKeepsPrefix()
    ensures ResolveToolName(Str("qdrant_x.find")) == Ok("qdrant_x.find")
  {
    var a := "qdrant_x.find";
    assert a[..8] == "qdrant_x";
    assert a[..8] !in AliasNamespaces;
    ResolveDotted(a, 8);
  }

  /**
    Resolution is not idempotent: a doubled alias namespace loses one level,
    and resolving the result again loses the other.
   */
  lemma ResolutionNotIdempotent(rest: string)
    ensures ResolveToolName(Str("qdrant.qdrant." + rest)) == Ok("qdrant." + rest)
    ensures ResolveToolName(Str("qdrant." + rest)) != Ok("qdrant." + rest)
  {
    var once := "qdrant." + rest;
    assert "qdrant.qdrant." + rest == "qdrant." + once;
    OneAliasDropped("qdrant." + once, once);
    OneAliasDropped(once, rest);
    assert |rest| < |once|;
  }

  /** A name under the `qdrant` namespace resolves to the text after the first `.`. */
  lemma OneAliasDropped(raw: string, rest: string)
    requires raw == "qdrant." + rest
    ensures ResolveToolName(Str(raw)) == Ok(rest)
  {
    assert raw[..6] == "qdrant" && raw[7..] == rest;
    ResolveDotted(raw, 6);
  }
}
