/** The compiler as a whole: a statement and the parameters it is run with. */
module PgAlignment {
  import opened Options
  import opened Json
  import opened Query
  import opened Relations
  import opened PgSql
  import opened PgCompiler
  import opened PgQueryCompiler

  /**
   The entry point: the statement and its parameters. Bound position by position, they are the
   statement that was meant, for every query the compiler accepts.
   */
  method CompileQuery(q: Query, resolver: Option<Resolver>)
      returns (ok: bool, sql: Preds<()>, params: seq<Param>)
    ensures ok <==> Compile(q, resolver).Some?
    ensures ok ==> |params| == HolesAll(sql) && Some(BindAll(sql, params)) == Compile(q, resolver)
    ensures ok ==> sql == EraseAll(Compile(q, resolver).value) && params == IntendedAll(Compile(q, resolver).value)
  {
    var aliasSeq := new AliasSeq();
    var compiler := new PgQueryCompiler(Root, resolver, aliasSeq);
    ghost var st := State(Root, resolver, [], FNil, PNil, 0);
    ok := compiler.Accept(q, st);
    sql, params := PNil, [];
    if ok {
      compiler.FlushEq(Visit(q, st).value);
      sql, params := compiler.sqlParts, compiler.params;
      BindAllErased(Compile(q, resolver).value);
    }
  }
}
