/**
 * `DESCRIBE TABLE`: one output row per field of the table's schema (for a
 * view, the schema of its stored query), in five parallel string columns —
 * name, type without its Nullable wrapper, YES/NO nullability, default, and
 * an always empty "extra".
 *
 * The catalog lookup, the SQL planner, the type formatter, the rendering of
 * a stored default expression and a type's default value belong to other
 * components; they are parameters here.
 */
module DescribeTable {
  import opened Wrappers
  import opened Types

  /** The engine name of views and the option under which a view keeps its query. */
  const ViewEngine := "VIEW"
  const QueryOption := "query"

  const ViewWithoutQuery := "Logical error, View Table must have a SelectQuery inside."

  /** A field of a table schema; 'defaultExpr' is the stored (serialized) default expression. */
  datatype TableField = TableField(name: string, dataType: DataType, defaultExpr: Option<string>)

  /** What the table lookup yields: engine, options and schema. */
  datatype Table = Table(engine: string, options: map<string, string>, schema: seq<TableField>)

  /** The names the statement gives for the table. */
  datatype DescribeTablePlan = DescribeTablePlan(catalog: string, database: string, table: string)

  /** The result block: five string columns and its row count. */
  datatype DescribeChunk = DescribeChunk(
    names: seq<string>,
    types: seq<string>,
    nulls: seq<string>,
    defaults: seq<string>,
    extras: seq<string>,
    numRows: nat)

  /** The collaborators of the statement, each a function of its inputs. */
  datatype Collaborators = Collaborators(
    /** looks the table up by catalog, database and name */
    getTable: (string, string, string) -> Result<Table, ErrorCode>,
    /** plans a query text and yields the schema of its result */
    planSql: string -> Result<seq<TableField>, ErrorCode>,
    /** the SQL spelling of a type */
    formatType: DataType -> string,
    /** parses a stored default expression and renders it; fails when it does not parse */
    renderDefault: string -> Result<string, ErrorCode>,
    /** the text of a type's default value */
    defaultValue: DataType -> string)

  /** The schema the statement describes: the table's own, or for a view its query's. */
  function ChosenSchema(t: Table, planSql: string -> Result<seq<TableField>, ErrorCode>): Result<seq<TableField>, ErrorCode> {
    if t.engine == ViewEngine then
      if QueryOption in t.options then planSql(t.options[QueryOption])
      else Err(Internal(ViewWithoutQuery))
    else Ok(t.schema)
  }

  /**
   * The schema the statement describes, or the error that ends it before any
   * row is built: the lookup's, the planner's, or a view without its query.
   */
  function DescribedSchema(plan: DescribeTablePlan, c: Collaborators): Result<seq<TableField>, ErrorCode> {
    var lookup := c.getTable(plan.catalog, plan.database, plan.table);
    if lookup.Err? then Err(lookup.error) else ChosenSchema(lookup.value, c.planSql)
  }

  /** The table is a view that keeps no query. */
  predicate ViewLacksQuery(plan: DescribeTablePlan, c: Collaborators) {
    var lookup := c.getTable(plan.catalog, plan.database, plan.table);
    lookup.Ok? && lookup.value.engine == ViewEngine && QueryOption !in lookup.value.options
  }

  /** The field has a stored default expression that cannot be rendered. */
  predicate DefaultFails(f: TableField, renderDefault: string -> Result<string, ErrorCode>) {
    f.defaultExpr.Some? && renderDefault(f.defaultExpr.value).Err?
  }

  /** 'k' is the first field whose default cannot be rendered. */
  predicate FirstFailure(fields: seq<TableField>, renderDefault: string -> Result<string, ErrorCode>, k: int) {
    0 <= k < |fields|
    && DefaultFails(fields[k], renderDefault)
    && forall j :: 0 <= j < k ==> !DefaultFails(fields[j], renderDefault)
  }

  /**
   * Builds the DESCRIBE result. An error from the lookup or the planner, a
   * view without a stored query, or the first default expression that does
   * not render ends it with that error; otherwise row i describes field i.
   */
  method Execute2(plan: DescribeTablePlan, c: Collaborators) returns (r: Result<DescribeChunk, ErrorCode>)
    ensures ViewLacksQuery(plan, c) ==> r == Err(Internal(ViewWithoutQuery))
    ensures DescribedSchema(plan, c).Err? ==> r == Err(DescribedSchema(plan, c).error)
    ensures DescribedSchema(plan, c).Ok? ==>
              var fields := DescribedSchema(plan, c).value;
              r.Ok? <==> forall i :: 0 <= i < |fields| ==> !DefaultFails(fields[i], c.renderDefault)
    ensures DescribedSchema(plan, c).Ok? && r.Err? ==>
              var fields := DescribedSchema(plan, c).value;
              exists k :: FirstFailure(fields, c.renderDefault, k)
                          && r.error == c.renderDefault(fields[k].defaultExpr.value).error
    ensures r.Ok? ==>
              DescribedSchema(plan, c).Ok?
              && var fields := DescribedSchema(plan, c).value;
              var out := r.value;
              out.numRows == |fields|
              && |out.names| == |out.types| == |out.nulls| == |out.defaults| == |out.extras| == |fields|
              && forall i :: 0 <= i < |fields| ==>
                   && out.names[i] == fields[i].name
                   && out.types[i] == c.formatType(RemoveNullable(fields[i].dataType))
                   && (out.nulls[i] == "YES" <==> fields[i].dataType.Nullable?)
                   && (out.nulls[i] == "NO" <==> !fields[i].dataType.Nullable?)
                   && out.defaults[i] == (match fields[i].defaultExpr
                                          case Some(e) => c.renderDefault(e).value
                                          case None => c.defaultValue(fields[i].dataType))
                   && out.extras[i] == ""
  {
    var lookup := c.getTable(plan.catalog, plan.database, plan.table);
    if lookup.Err? {
      return Err(lookup.error);
    }
    var table := lookup.value;
    var schema: seq<TableField>;
    if table.engine == ViewEngine {
      if QueryOption in table.options {
        var planned := c.planSql(table.options[QueryOption]);
        if planned.Err? {
          return Err(planned.error);
        }
        schema := planned.value;
      } else {
        return Err(Internal(ViewWithoutQuery));
      }
    } else {
      schema := table.schema;
    }

    var names: seq<string> := [];
    var types: seq<string> := [];
    var nulls: seq<string> := [];
    var defaults: seq<string> := [];
    var extras: seq<string> := [];
    for i := 0 to |schema|
      invariant |names| == |types| == |nulls| == |defaults| == |extras| == i
      invariant forall j :: 0 <= j < i ==> !DefaultFails(schema[j], c.renderDefault)
      invariant forall j :: 0 <= j < i ==>
                  && names[j] == schema[j].name
                  && types[j] == c.formatType(RemoveNullable(schema[j].dataType))
                  && (nulls[j] == "YES" <==> schema[j].dataType.Nullable?)
                  && (nulls[j] == "NO" <==> !schema[j].dataType.Nullable?)
                  && defaults[j] == (match schema[j].defaultExpr
                                     case Some(e) => c.renderDefault(e).value
                                     case None => c.defaultValue(schema[j].dataType))
                  && extras[j] == ""
    {
      var field := schema[i];
      names := names + [field.name];
      var nonNullType := RemoveNullable(field.dataType);
      types := types + [c.formatType(nonNullType)];
      nulls := nulls + [if field.dataType.Nullable? then "YES" else "NO"];
      match field.defaultExpr {
        case Some(expr) =>
          var rendered := c.renderDefault(expr);
          if rendered.Err? {
            assert FirstFailure(schema, c.renderDefault, i);
            return Err(rendered.error);
          }
          defaults := defaults + [rendered.value];
        case None =>
          defaults := defaults + [c.defaultValue(field.dataType)];
      }
      extras := extras + [""];
    }

    var numRows := |schema|;
    return Ok(DescribeChunk(names, types, nulls, defaults, extras, numRows));
  }
}
