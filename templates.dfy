/** The query templates are f-strings: fixed text with shared fragments spliced in.
    A template is modelled as its sequence of pieces, and its SQL as their rendering, so
    that which fragments a query contains follows from its structure. */
module Templates {
  import opened Text
  import opened TableSchemas

  /** One piece of an f-string: literal text, a `FIELD_MAPPINGS[...]` lookup, or a
      `COMMON_CONDITIONS[...]` lookup. */
  datatype Part = Lit(text: string) | Mapping(field: Field) | Filter(condition: Condition)

  function RenderPart(p: Part): string
  {
    match p
    case Lit(s) => s
    case Mapping(f) => f.Expr()
    case Filter(c) => c.Expr()
  }

  function Pieces(parts: seq<Part>): (pieces: seq<string>)
    ensures |pieces| == |parts|
    ensures forall i :: 0 <= i < |parts| ==> pieces[i] == RenderPart(parts[i])
  {
    seq(|parts|, i requires 0 <= i < |parts| => RenderPart(parts[i]))
  }

  /** The SQL text the f-string evaluates to. */
  function Render(parts: seq<Part>): string
  {
    Concat(Pieces(parts))
  }

  /** Every piece of a template, rendered, occurs in the template's SQL. */
  lemma RenderContains(parts: seq<Part>, p: Part)
    requires p in parts
    ensures Contains(Render(parts), RenderPart(p))
  {
    var i :| 0 <= i < |parts| && parts[i] == p;
    ContainsEachPart(Pieces(parts), i);
  }

  /** A template holding the `FROM` clause of table `t` names that table in its SQL. */
  lemma RenderReadsFrom(parts: seq<Part>, t: TableRef)
    requires Lit("FROM " + t.QualifiedName()) in parts
    ensures Contains(Render(parts), "FROM " + t.QualifiedName())
    ensures Contains(Render(parts), t.QualifiedName())
  {
    RenderContains(parts, Lit("FROM " + t.QualifiedName()));
    ContainsDropLeft(Render(parts), "FROM ", t.QualifiedName());
  }

  /** Every field mapping spliced into the template is one of `allowed`. */
  predicate SplicesOnly(parts: seq<Part>, allowed: set<Field>)
  {
    forall i :: 0 <= i < |parts| && parts[i].Mapping? ==> parts[i].field in allowed
  }

  /** The template is constant text: nothing is spliced into it. */
  predicate NoInterpolation(parts: seq<Part>)
  {
    forall i :: 0 <= i < |parts| ==> parts[i].Lit?
  }

  /** `COALESCE(column, 'Unknown')`: the column's value, or the label `'Unknown'` where it
      is NULL. */
  function OrUnknown(column: string): string
  {
    "COALESCE(" + column + ", " + "'Unknown'" + ")"
  }

  /** A template that selects `OrUnknown(column)` mentions the column and labels its NULL
      group `'Unknown'`. */
  lemma RenderLabelsUnknown(parts: seq<Part>, column: string)
    requires Lit(OrUnknown(column)) in parts
    ensures Contains(Render(parts), column)
    ensures Contains(Render(parts), "'Unknown'")
  {
    var s := Render(parts);
    RenderContains(parts, Lit(OrUnknown(column)));
    ContainsDropRight(s, "COALESCE(" + column + ", " + "'Unknown'", ")");
    ContainsDropLeft(s, "COALESCE(" + column + ", ", "'Unknown'");
    ContainsDropRight(s, "COALESCE(" + column + ", ", "'Unknown'");
    ContainsDropRight(s, "COALESCE(" + column, ", ");
    ContainsDropLeft(s, "COALESCE(", column);
  }

  /** Piece `a` comes before piece `b` in the template. */
  predicate Precedes(parts: seq<Part>, a: Part, b: Part)
  {
    exists i, j :: 0 <= i < j < |parts| && parts[i] == a && parts[j] == b
  }
}
