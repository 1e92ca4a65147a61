/** The pascal grammar of the converter's examples: 36 rules, with
    recursion through statements, expressions and blocks, delimiters that
    are themselves rules, and `type:value` references whose value holds a
    colon. Every rule converts, and the path the example inspects leads to
    the verified marker of `var_decl_part`. */
module PascalExample {
  import opened Shorthand
  import opened Canonical
  import opened Diagnostics
  import opened Resolver
  import opened Components
  import opened GraphBuilder
  import opened Evaluation

  const PascalLex: seq<string> :=
    ["comment", "comment", "word", "numeric_literal", "char_literal", "char_literal", "whitespace", "symbol"]

  /** Each rule's definition as the tables write it. */
  const MainDef: RawDef :=
    Tuple("sequence", List([
      Ref("word:program"),
      Ref("name"),
      Ref("symbol:;"),
      Ref("block"),
      Ref("symbol:.")]), None)
  const NameDef: RawDef := Tuple("one", Ref("word"), None)
  const BlockDef: RawDef :=
    Tuple("sequence", List([
      Tuple("optional", Ref("const_decl_part"), None),
      Tuple("optional", Ref("var_decl_part"), None),
      Tuple("optional", Tuple("one_plus", Tuple("either", List([Ref("func_decl"), Ref("proc_decl")]), None), None), None),
      Ref("word:begin"),
      Ref("stmt_list"),
      Ref("word:end")]), None)
  const ConstDeclPartDef: RawDef :=
    Tuple("sequence", List([
      Ref("word:const"),
      Ref("VERIFIED"),
      Tuple("one_plus", Ref("const_decl"), None)]), None)
  const ConstDeclDef: RawDef :=
    Tuple("sequence", List([
      Ref("name"),
      Ref("symbol:="),
      Ref("constant"),
      Ref("symbol:;")]), None)
  const ConstantDef: RawDef :=
    Tuple("sequence", List([
      Tuple("optional", Ref("prefix_opr"), None),
      Ref("unsigned_constant")]), None)
  const UnsignedConstantDef: RawDef :=
    Tuple("either", List([
      Ref("name"),
      Ref("numeric_literal"),
      Ref("char_literal")]), None)
  const PrefixOprDef: RawDef := Tuple("either", List([Ref("symbol:+"), Ref("symbol:-")]), None)
  const VarDeclPartDef: RawDef :=
    Tuple("sequence", List([
      Ref("word:var"),
      Ref("VERIFIED"),
      Tuple("one_plus", Ref("var_decl"), None)]), None)
  const VarDeclDef: RawDef :=
    Tuple("sequence", List([
      Ref("name"),
      Ref("symbol::"),
      Ref("type"),
      Ref("symbol:;")]), None)
  const TypeNameDef: RawDef := Tuple("one", Ref("name"), None)
  const ArrayTypeDef: RawDef :=
    Tuple("sequence", List([
      Ref("word:array"),
      Ref("symbol:["),
      Ref("constant"),
      Ref("symbol:.."),
      Ref("constant"),
      Ref("symbol:]"),
      Ref("word:of"),
      Ref("type")]), None)
  const FuncDeclDef: RawDef :=
    Tuple("sequence", List([
      Ref("word:function"),
      Ref("name"),
      Tuple("optional", Ref("param_decl_list"), None),
      Ref("symbol::"),
      Ref("type_name"),
      Ref("symbol:;"),
      Ref("block"),
      Ref("symbol:;")]), None)
  const ProcDeclDef: RawDef :=
    Tuple("sequence", List([
      Ref("word:procedure"),
      Ref("name"),
      Tuple("optional", Ref("param_decl_list"), None),
      Ref("symbol:;"),
      Ref("block"),
      Ref("symbol:;")]), None)
  const ParamDeclListDef: RawDef :=
    Tuple("sequence", List([
      Ref("symbol:("),
      Tuple("one_plus", Ref("param_decl"), Some(Ref("symbol:;"))),
      Ref("symbol:)")]), None)
  const ParamDeclDef: RawDef :=
    Tuple("sequence", List([
      Ref("name"),
      Ref("symbol::"),
      Ref("type_name")]), None)
  const StmtListDef: RawDef := Tuple("zero_plus", Ref("statement"), Some(Ref("symbol:;")))
  const StatementDef: RawDef :=
    Tuple("either", List([
      Ref("assign_stmt"),
      Ref("compound_stmt"),
      Ref("empty_stmt"),
      Ref("if_stmt"),
      Ref("proc_call"),
      Ref("while_stmt")]), None)
  const EmptyStmtDef: RawDef := Tuple("sequence", List([Ref("symbol:;")]), None)
  const AssignStmtDef: RawDef :=
    Tuple("sequence", List([
      Ref("variable"),
      Ref("symbol::="),
      Ref("expression")]), None)
  const VariableDef: RawDef :=
    Tuple("sequence", List([
      Ref("name"),
      Tuple("optional", Tuple("sequence", List([Ref("symbol:["), Ref("expression"), Ref("symbol:]")]), None), None)]), None)
  const ProcCallDef: RawDef :=
    Tuple("sequence", List([
      Ref("name"),
      Tuple("optional", Tuple("sequence", List([Ref("symbol:("), Tuple("one_plus", Ref("expression"), Some(Ref("symbol:,"))), Ref("symbol:)")]), None), None)]), None)
  const IfStmtDef: RawDef :=
    Tuple("sequence", List([
      Ref("word:if"),
      Ref("expression"),
      Ref("word:then"),
      Ref("statement"),
      Tuple("optional", Tuple("sequence", List([Ref("word:else"), Ref("statement")]), None), None)]), None)
  const WhileStmtDef: RawDef :=
    Tuple("sequence", List([
      Ref("word:while"),
      Ref("expression"),
      Ref("word:do"),
      Ref("statement")]), None)
  const CompoundStmtDef: RawDef :=
    Tuple("sequence", List([
      Ref("word:begin"),
      Ref("stmt_list"),
      Ref("word:end")]), None)
  const ExpressionDef: RawDef :=
    Tuple("sequence", List([
      Ref("simple_expr"),
      Ref("rel_opr"),
      Ref("simple_expr")]), None)
  const RelOprDef: RawDef :=
    Tuple("either", List([
      Ref("symbol:="),
      Ref("symbol:<>"),
      Ref("symbol:<"),
      Ref("symbol:<="),
      Ref("symbol:>"),
      Ref("symbol:>=")]), None)
  const SimpleExprDef: RawDef :=
    Tuple("sequence", List([
      Tuple("optional", Ref("prefix_opr"), None),
      Tuple("one_plus", Ref("term_opr"), Some(Ref("term")))]), None)
  const TermOprDef: RawDef :=
    Tuple("either", List([
      Ref("symbol:+"),
      Ref("symbol:-"),
      Ref("word:or")]), None)
  const TermDef: RawDef := Tuple("one_plus", Ref("factor"), Some(Ref("factor_opr")))
  const FactorOprDef: RawDef :=
    Tuple("either", List([
      Ref("symbol:*"),
      Ref("word:div"),
      Ref("word:mod"),
      Ref("word:and")]), None)
  const FactorDef: RawDef :=
    Tuple("either", List([
      Ref("unsigned_constant"),
      Ref("variable"),
      Ref("func_call"),
      Ref("inner_expr"),
      Ref("negation")]), None)
  const FuncCallDef: RawDef :=
    Tuple("sequence", List([
      Ref("name"),
      Tuple("optional", Tuple("sequence", List([Ref("symbol:("), Tuple("one_plus", Ref("expression"), Some(Ref("symbol:,"))), Ref("symbol:)")]), None), None)]), None)
  const InnerExprDef: RawDef :=
    Tuple("sequence", List([
      Ref("symbol:("),
      Ref("expression"),
      Ref("symbol:)")]), None)
  const NegationDef: RawDef := Tuple("sequence", List([Ref("word:not"), Ref("factor")]), None)
  const TypeDef: RawDef := Tuple("one", Ref("word"), None)

  /** What each rule converts to: rule names become shared edges, token
      names lex leaves, and the verified marker a verified node. */
  const MainNode: Node :=
    Sequence(Some("main"), [
      Lex("word", Some("program")),
      RuleRef("name"),
      Lex("symbol", Some(";")),
      RuleRef("block"),
      Lex("symbol", Some("."))])
  const NameNode: Node := One(Some("name"), Lex("word", None))
  const BlockNode: Node :=
    Sequence(Some("block"), [
      Optional(None, RuleRef("const_decl_part")),
      Optional(None, RuleRef("var_decl_part")),
      Optional(None, Repeat(None, OnePlus, Either(None, [RuleRef("func_decl"), RuleRef("proc_decl")]), None)),
      Lex("word", Some("begin")),
      RuleRef("stmt_list"),
      Lex("word", Some("end"))])
  const ConstDeclPartNode: Node :=
    Sequence(Some("const_decl_part"), [
      Lex("word", Some("const")),
      Verified,
      Repeat(None, OnePlus, RuleRef("const_decl"), None)])
  const ConstDeclNode: Node :=
    Sequence(Some("const_decl"), [
      RuleRef("name"),
      Lex("symbol", Some("=")),
      RuleRef("constant"),
      Lex("symbol", Some(";"))])
  const ConstantNode: Node :=
    Sequence(Some("constant"), [
      Optional(None, RuleRef("prefix_opr")),
      RuleRef("unsigned_constant")])
  const UnsignedConstantNode: Node :=
    Either(Some("unsigned_constant"), [
      RuleRef("name"),
      Lex("numeric_literal", None),
      Lex("char_literal", None)])
  const PrefixOprNode: Node :=
    Either(Some("prefix_opr"), [
      Lex("symbol", Some("+")),
      Lex("symbol", Some("-"))])
  const VarDeclPartNode: Node :=
    Sequence(Some("var_decl_part"), [
      Lex("word", Some("var")),
      Verified,
      Repeat(None, OnePlus, RuleRef("var_decl"), None)])
  const VarDeclNode: Node :=
    Sequence(Some("var_decl"), [
      RuleRef("name"),
      Lex("symbol", Some(":")),
      RuleRef("type"),
      Lex("symbol", Some(";"))])
  const TypeNameNode: Node := One(Some("type_name"), RuleRef("name"))
  const ArrayTypeNode: Node :=
    Sequence(Some("array_type"), [
      Lex("word", Some("array")),
      Lex("symbol", Some("[")),
      RuleRef("constant"),
      Lex("symbol", Some("..")),
      RuleRef("constant"),
      Lex("symbol", Some("]")),
      Lex("word", Some("of")),
      RuleRef("type")])
  const FuncDeclNode: Node :=
    Sequence(Some("func_decl"), [
      Lex("word", Some("function")),
      RuleRef("name"),
      Optional(None, RuleRef("param_decl_list")),
      Lex("symbol", Some(":")),
      RuleRef("type_name"),
      Lex("symbol", Some(";")),
      RuleRef("block"),
      Lex("symbol", Some(";"))])
  const ProcDeclNode: Node :=
    Sequence(Some("proc_decl"), [
      Lex("word", Some("procedure")),
      RuleRef("name"),
      Optional(None, RuleRef("param_decl_list")),
      Lex("symbol", Some(";")),
      RuleRef("block"),
      Lex("symbol", Some(";"))])
  const ParamDeclListNode: Node :=
    Sequence(Some("param_decl_list"), [
      Lex("symbol", Some("(")),
      Repeat(None, OnePlus, RuleRef("param_decl"), Some(Lex("symbol", Some(";")))),
      Lex("symbol", Some(")"))])
  const ParamDeclNode: Node :=
    Sequence(Some("param_decl"), [
      RuleRef("name"),
      Lex("symbol", Some(":")),
      RuleRef("type_name")])
  const StmtListNode: Node := Repeat(Some("stmt_list"), ZeroPlus, RuleRef("statement"), Some(Lex("symbol", Some(";"))))
  const StatementNode: Node :=
    Either(Some("statement"), [
      RuleRef("assign_stmt"),
      RuleRef("compound_stmt"),
      RuleRef("empty_stmt"),
      RuleRef("if_stmt"),
      RuleRef("proc_call"),
      RuleRef("while_stmt")])
  const EmptyStmtNode: Node := Sequence(Some("empty_stmt"), [Lex("symbol", Some(";"))])
  const AssignStmtNode: Node :=
    Sequence(Some("assign_stmt"), [
      RuleRef("variable"),
      Lex("symbol", Some(":=")),
      RuleRef("expression")])
  const VariableNode: Node :=
    Sequence(Some("variable"), [
      RuleRef("name"),
      Optional(None, Sequence(None, [Lex("symbol", Some("[")), RuleRef("expression"), Lex("symbol", Some("]"))]))])
  const ProcCallNode: Node :=
    Sequence(Some("proc_call"), [
      RuleRef("name"),
      Optional(None, Sequence(None, [Lex("symbol", Some("(")), Repeat(None, OnePlus, RuleRef("expression"), Some(Lex("symbol", Some(",")))), Lex("symbol", Some(")"))]))])
  const IfStmtNode: Node :=
    Sequence(Some("if_stmt"), [
      Lex("word", Some("if")),
      RuleRef("expression"),
      Lex("word", Some("then")),
      RuleRef("statement"),
      Optional(None, Sequence(None, [Lex("word", Some("else")), RuleRef("statement")]))])
  const WhileStmtNode: Node :=
    Sequence(Some("while_stmt"), [
      Lex("word", Some("while")),
      RuleRef("expression"),
      Lex("word", Some("do")),
      RuleRef("statement")])
  const CompoundStmtNode: Node :=
    Sequence(Some("compound_stmt"), [
      Lex("word", Some("begin")),
      RuleRef("stmt_list"),
      Lex("word", Some("end"))])
  const ExpressionNode: Node :=
    Sequence(Some("expression"), [
      RuleRef("simple_expr"),
      RuleRef("rel_opr"),
      RuleRef("simple_expr")])
  const RelOprNode: Node :=
    Either(Some("rel_opr"), [
      Lex("symbol", Some("=")),
      Lex("symbol", Some("<>")),
      Lex("symbol", Some("<")),
      Lex("symbol", Some("<=")),
      Lex("symbol", Some(">")),
      Lex("symbol", Some(">="))])
  const SimpleExprNode: Node :=
    Sequence(Some("simple_expr"), [
      Optional(None, RuleRef("prefix_opr")),
      Repeat(None, OnePlus, RuleRef("term_opr"), Some(RuleRef("term")))])
  const TermOprNode: Node :=
    Either(Some("term_opr"), [
      Lex("symbol", Some("+")),
      Lex("symbol", Some("-")),
      Lex("word", Some("or"))])
  const TermNode: Node := Repeat(Some("term"), OnePlus, RuleRef("factor"), Some(RuleRef("factor_opr")))
  const FactorOprNode: Node :=
    Either(Some("factor_opr"), [
      Lex("symbol", Some("*")),
      Lex("word", Some("div")),
      Lex("word", Some("mod")),
      Lex("word", Some("and"))])
  const FactorNode: Node :=
    Either(Some("factor"), [
      RuleRef("unsigned_constant"),
      RuleRef("variable"),
      RuleRef("func_call"),
      RuleRef("inner_expr"),
      RuleRef("negation")])
  const FuncCallNode: Node :=
    Sequence(Some("func_call"), [
      RuleRef("name"),
      Optional(None, Sequence(None, [Lex("symbol", Some("(")), Repeat(None, OnePlus, RuleRef("expression"), Some(Lex("symbol", Some(",")))), Lex("symbol", Some(")"))]))])
  const InnerExprNode: Node :=
    Sequence(Some("inner_expr"), [
      Lex("symbol", Some("(")),
      RuleRef("expression"),
      Lex("symbol", Some(")"))])
  const NegationNode: Node :=
    Sequence(Some("negation"), [
      Lex("word", Some("not")),
      RuleRef("factor")])
  const TypeNode: Node := One(Some("type"), Lex("word", None))

  /** The rule names of the program, its block and types. */
  const ProgramRules: set<string> :=
    {"main", "name", "block", "type_name", "array_type"}

  /** The rule names of constant and variable declarations. */
  const DeclarationRules: set<string> :=
    {"const_decl_part", "const_decl", "constant", "unsigned_constant", "prefix_opr", "var_decl_part", "var_decl"}

  /** The rule names of routines, their parameters and statement lists. */
  const RoutineRules: set<string> :=
    {"func_decl", "proc_decl", "param_decl_list", "param_decl", "stmt_list", "statement", "empty_stmt"}

  /** The rule names of the other statements. */
  const StatementRules: set<string> :=
    {"assign_stmt", "variable", "proc_call", "if_stmt", "while_stmt", "compound_stmt"}

  /** The rule names of expressions and terms. */
  const ExpressionRules: set<string> :=
    {"expression", "rel_opr", "simple_expr", "term_opr", "term", "factor_opr"}

  /** The rule names of factors and the type rule. */
  const FactorRules: set<string> :=
    {"factor", "func_call", "inner_expr", "negation", "type"}

  const PascalRuleNames: set<string> := ProgramRules + DeclarationRules + RoutineRules + StatementRules + ExpressionRules + FactorRules

  /** The pascal tables: the token names and, under each rule name, its
      definition. */
  predicate PascalShape(g: Grammar) {
    g.lex == PascalLex && g.rules.Keys == PascalRuleNames
    && ProgramDefs(g)
    && DeclarationDefs(g)
    && RoutineDefs(g)
    && StatementDefs(g)
    && ExpressionDefs(g)
    && FactorDefs(g)
  }

  predicate ProgramDefs(g: Grammar) {
    "main" in g.rules && g.rules["main"] == MainDef
    && "name" in g.rules && g.rules["name"] == NameDef
    && "block" in g.rules && g.rules["block"] == BlockDef
    && "type_name" in g.rules && g.rules["type_name"] == TypeNameDef
    && "array_type" in g.rules && g.rules["array_type"] == ArrayTypeDef
  }

  predicate DeclarationDefs(g: Grammar) {
    "const_decl_part" in g.rules && g.rules["const_decl_part"] == ConstDeclPartDef
    && "const_decl" in g.rules && g.rules["const_decl"] == ConstDeclDef
    && "constant" in g.rules && g.rules["constant"] == ConstantDef
    && "unsigned_constant" in g.rules && g.rules["unsigned_constant"] == UnsignedConstantDef
    && "prefix_opr" in g.rules && g.rules["prefix_opr"] == PrefixOprDef
    && "var_decl_part" in g.rules && g.rules["var_decl_part"] == VarDeclPartDef
    && "var_decl" in g.rules && g.rules["var_decl"] == VarDeclDef
  }

  predicate RoutineDefs(g: Grammar) {
    "func_decl" in g.rules && g.rules["func_decl"] == FuncDeclDef
    && "proc_decl" in g.rules && g.rules["proc_decl"] == ProcDeclDef
    && "param_decl_list" in g.rules && g.rules["param_decl_list"] == ParamDeclListDef
    && "param_decl" in g.rules && g.rules["param_decl"] == ParamDeclDef
    && "stmt_list" in g.rules && g.rules["stmt_list"] == StmtListDef
    && "statement" in g.rules && g.rules["statement"] == StatementDef
    && "empty_stmt" in g.rules && g.rules["empty_stmt"] == EmptyStmtDef
  }

  predicate StatementDefs(g: Grammar) {
    "assign_stmt" in g.rules && g.rules["assign_stmt"] == AssignStmtDef
    && "variable" in g.rules && g.rules["variable"] == VariableDef
    && "proc_call" in g.rules && g.rules["proc_call"] == ProcCallDef
    && "if_stmt" in g.rules && g.rules["if_stmt"] == IfStmtDef
    && "while_stmt" in g.rules && g.rules["while_stmt"] == WhileStmtDef
    && "compound_stmt" in g.rules && g.rules["compound_stmt"] == CompoundStmtDef
  }

  predicate ExpressionDefs(g: Grammar) {
    "expression" in g.rules && g.rules["expression"] == ExpressionDef
    && "rel_opr" in g.rules && g.rules["rel_opr"] == RelOprDef
    && "simple_expr" in g.rules && g.rules["simple_expr"] == SimpleExprDef
    && "term_opr" in g.rules && g.rules["term_opr"] == TermOprDef
    && "term" in g.rules && g.rules["term"] == TermDef
    && "factor_opr" in g.rules && g.rules["factor_opr"] == FactorOprDef
  }

  predicate FactorDefs(g: Grammar) {
    "factor" in g.rules && g.rules["factor"] == FactorDef
    && "func_call" in g.rules && g.rules["func_call"] == FuncCallDef
    && "inner_expr" in g.rules && g.rules["inner_expr"] == InnerExprDef
    && "negation" in g.rules && g.rules["negation"] == NegationDef
    && "type" in g.rules && g.rules["type"] == TypeDef
  }

  // ---- literal facts: the `type:value` references of the tables, split
  // at their first colon. These only spare the solver from splitting the
  // literals inside the conversion proofs; they state nothing about the
  // converter. -------------------------------------------------------------

  lemma MainItemsARefs()
    ensures "word:program" == "word" + ":" + "program"
  {
  }

  lemma MainItemsCRefs()
    ensures "symbol:;" == "symbol" + ":" + ";"
  {
  }

  lemma MainItemsERefs()
    ensures "symbol:." == "symbol" + ":" + "."
  {
  }

  lemma BlockItemsDRefs()
    ensures "word:begin" == "word" + ":" + "begin"
  {
  }

  lemma BlockItemsFRefs()
    ensures "word:end" == "word" + ":" + "end"
  {
  }

  lemma ConstDeclPartItemsARefs()
    ensures "word:const" == "word" + ":" + "const"
  {
  }

  lemma ConstDeclItemsBRefs()
    ensures "symbol:=" == "symbol" + ":" + "="
  {
  }

  lemma ConstDeclItemsDRefs()
    ensures "symbol:;" == "symbol" + ":" + ";"
  {
  }

  lemma PrefixOprItemsARefs()
    ensures "symbol:+" == "symbol" + ":" + "+"
  {
  }

  lemma PrefixOprItemsBRefs()
    ensures "symbol:-" == "symbol" + ":" + "-"
  {
  }

  lemma VarDeclPartItemsARefs()
    ensures "word:var" == "word" + ":" + "var"
  {
  }

  lemma VarDeclItemsBRefs()
    ensures "symbol::" == "symbol" + ":" + ":"
  {
  }

  lemma VarDeclItemsDRefs()
    ensures "symbol:;" == "symbol" + ":" + ";"
  {
  }

  lemma ArrayTypeItemsARefs()
    ensures "word:array" == "word" + ":" + "array"
  {
  }

  lemma ArrayTypeItemsBRefs()
    ensures "symbol:[" == "symbol" + ":" + "["
  {
  }

  lemma ArrayTypeItemsDRefs()
    ensures "symbol:.." == "symbol" + ":" + ".."
  {
  }

  lemma ArrayTypeItemsFRefs()
    ensures "symbol:]" == "symbol" + ":" + "]"
  {
  }

  lemma ArrayTypeItemsGRefs()
    ensures "word:of" == "word" + ":" + "of"
  {
  }

  lemma FuncDeclItemsARefs()
    ensures "word:function" == "word" + ":" + "function"
  {
  }

  lemma FuncDeclItemsDRefs()
    ensures "symbol::" == "symbol" + ":" + ":"
  {
  }

  lemma FuncDeclItemsFRefs()
    ensures "symbol:;" == "symbol" + ":" + ";"
  {
  }

  lemma FuncDeclItemsHRefs()
    ensures "symbol:;" == "symbol" + ":" + ";"
  {
  }

  lemma ProcDeclItemsARefs()
    ensures "word:procedure" == "word" + ":" + "procedure"
  {
  }

  lemma ProcDeclItemsDRefs()
    ensures "symbol:;" == "symbol" + ":" + ";"
  {
  }

  lemma ProcDeclItemsFRefs()
    ensures "symbol:;" == "symbol" + ":" + ";"
  {
  }

  lemma ParamDeclListItemsARefs()
    ensures "symbol:(" == "symbol" + ":" + "("
  {
  }

  lemma ParamDeclListAt1ItemsBRefs()
    ensures "symbol:;" == "symbol" + ":" + ";"
  {
  }

  lemma ParamDeclListItemsCRefs()
    ensures "symbol:)" == "symbol" + ":" + ")"
  {
  }

  lemma ParamDeclItemsBRefs()
    ensures "symbol::" == "symbol" + ":" + ":"
  {
  }

  lemma StmtListItemsBRefs()
    ensures "symbol:;" == "symbol" + ":" + ";"
  {
  }

  lemma EmptyStmtItemsRefs()
    ensures "symbol:;" == "symbol" + ":" + ";"
  {
  }

  lemma AssignStmtItemsBRefs()
    ensures "symbol::=" == "symbol" + ":" + ":="
  {
  }

  lemma VariableAt1SubItemsARefs()
    ensures "symbol:[" == "symbol" + ":" + "["
  {
  }

  lemma VariableAt1SubItemsCRefs()
    ensures "symbol:]" == "symbol" + ":" + "]"
  {
  }

  lemma ProcCallAt1SubItemsARefs()
    ensures "symbol:(" == "symbol" + ":" + "("
  {
  }

  lemma ProcCallAt1SubAt1ItemsBRefs()
    ensures "symbol:," == "symbol" + ":" + ","
  {
  }

  lemma ProcCallAt1SubItemsCRefs()
    ensures "symbol:)" == "symbol" + ":" + ")"
  {
  }

  lemma IfStmtItemsARefs()
    ensures "word:if" == "word" + ":" + "if"
  {
  }

  lemma IfStmtItemsCRefs()
    ensures "word:then" == "word" + ":" + "then"
  {
  }

  lemma IfStmtAt4SubItemsARefs()
    ensures "word:else" == "word" + ":" + "else"
  {
  }

  lemma WhileStmtItemsARefs()
    ensures "word:while" == "word" + ":" + "while"
  {
  }

  lemma WhileStmtItemsCRefs()
    ensures "word:do" == "word" + ":" + "do"
  {
  }

  lemma CompoundStmtItemsARefs()
    ensures "word:begin" == "word" + ":" + "begin"
  {
  }

  lemma CompoundStmtItemsCRefs()
    ensures "word:end" == "word" + ":" + "end"
  {
  }

  lemma RelOprItemsARefs()
    ensures "symbol:=" == "symbol" + ":" + "="
  {
  }

  lemma RelOprItemsBRefs()
    ensures "symbol:<>" == "symbol" + ":" + "<>"
  {
  }

  lemma RelOprItemsCRefs()
    ensures "symbol:<" == "symbol" + ":" + "<"
  {
  }

  lemma RelOprItemsDRefs()
    ensures "symbol:<=" == "symbol" + ":" + "<="
  {
  }

  lemma RelOprItemsERefs()
    ensures "symbol:>" == "symbol" + ":" + ">"
  {
  }

  lemma RelOprItemsFRefs()
    ensures "symbol:>=" == "symbol" + ":" + ">="
  {
  }

  lemma TermOprItemsARefs()
    ensures "symbol:+" == "symbol" + ":" + "+"
  {
  }

  lemma TermOprItemsBRefs()
    ensures "symbol:-" == "symbol" + ":" + "-"
  {
  }

  lemma TermOprItemsCRefs()
    ensures "word:or" == "word" + ":" + "or"
  {
  }

  lemma FactorOprItemsARefs()
    ensures "symbol:*" == "symbol" + ":" + "*"
  {
  }

  lemma FactorOprItemsBRefs()
    ensures "word:div" == "word" + ":" + "div"
  {
  }

  lemma FactorOprItemsCRefs()
    ensures "word:mod" == "word" + ":" + "mod"
  {
  }

  lemma FactorOprItemsDRefs()
    ensures "word:and" == "word" + ":" + "and"
  {
  }

  lemma FuncCallAt1SubItemsARefs()
    ensures "symbol:(" == "symbol" + ":" + "("
  {
  }

  lemma FuncCallAt1SubAt1ItemsBRefs()
    ensures "symbol:," == "symbol" + ":" + ","
  {
  }

  lemma FuncCallAt1SubItemsCRefs()
    ensures "symbol:)" == "symbol" + ":" + ")"
  {
  }

  lemma InnerExprItemsARefs()
    ensures "symbol:(" == "symbol" + ":" + "("
  {
  }

  lemma InnerExprItemsCRefs()
    ensures "symbol:)" == "symbol" + ":" + ")"
  {
  }

  lemma NegationItemsARefs()
    ensures "word:not" == "word" + ":" + "not"
  {
  }

  // ---- each rule, from the conversions of its items ----------------------

  lemma MainItemsA(g: Grammar)
    requires g.lex == PascalLex
    ensures ConvItem(g, "main", Ref("word:program"), true) == Ok(Lex("word", Some("program")))
  {
    MainItemsARefs();
    ValuedTokenItem(g, "main", "word:program", "word", "program", true);
  }

  lemma MainItemsB(g: Grammar)
    requires g.lex == PascalLex
    requires "name" in g.rules
    ensures ConvItem(g, "main", Ref("name"), true) == Ok(RuleRef("name"))
  {
    RuleItem(g, "main", "name", true);
  }

  lemma MainItemsC(g: Grammar)
    requires g.lex == PascalLex
    ensures ConvItem(g, "main", Ref("symbol:;"), true) == Ok(Lex("symbol", Some(";")))
  {
    MainItemsCRefs();
    ValuedTokenItem(g, "main", "symbol:;", "symbol", ";", true);
  }

  lemma MainItemsD(g: Grammar)
    requires g.lex == PascalLex
    requires "block" in g.rules
    ensures ConvItem(g, "main", Ref("block"), true) == Ok(RuleRef("block"))
  {
    RuleItem(g, "main", "block", true);
  }

  lemma MainItemsE(g: Grammar)
    requires g.lex == PascalLex
    ensures ConvItem(g, "main", Ref("symbol:."), true) == Ok(Lex("symbol", Some(".")))
  {
    MainItemsERefs();
    ValuedTokenItem(g, "main", "symbol:.", "symbol", ".", true);
  }

  /** The root: a sequence of words, symbols and two rule edges. */
  lemma MainRule(g: Grammar)
    requires g.lex == PascalLex && "main" in g.rules && g.rules["main"] == MainDef
    requires "name" in g.rules && "block" in g.rules
    ensures ConvRule(g, "main") == Ok(MainNode)
  {
    MainItemsA(g);
    MainItemsB(g);
    MainItemsC(g);
    MainItemsD(g);
    MainItemsE(g);
    ListOf5(g, "main", true, Ref("word:program"), Ref("name"), Ref("symbol:;"), Ref("block"), Ref("symbol:."), Lex("word", Some("program")), RuleRef("name"), Lex("symbol", Some(";")), RuleRef("block"), Lex("symbol", Some(".")));
    SequenceTuple(g, "main", Some("main"), [Ref("word:program"), Ref("name"), Ref("symbol:;"), Ref("block"), Ref("symbol:.")], [Lex("word", Some("program")), RuleRef("name"), Lex("symbol", Some(";")), RuleRef("block"), Lex("symbol", Some("."))]);
    TupleRule(g, "main");
  }

  lemma NameRule(g: Grammar)
    requires g.lex == PascalLex && "name" in g.rules && g.rules["name"] == NameDef
    ensures ConvRule(g, "name") == Ok(NameNode)
  {
    TokenItem(g, "name", "word", false);
    OneTuple(g, "name", Some("name"), Ref("word"), Lex("word", None));
    TupleRule(g, "name");
  }

  lemma BlockAt0(g: Grammar)
    requires g.lex == PascalLex
    requires "const_decl_part" in g.rules
    ensures ConvItem(g, "block", Tuple("optional", Ref("const_decl_part"), None), true) == Ok(Optional(None, RuleRef("const_decl_part")))
  {
    RuleItem(g, "block", "const_decl_part", false);
    OptionalTuple(g, "block", None, Ref("const_decl_part"), RuleRef("const_decl_part"));
    TupleItem(g, "block", Tuple("optional", Ref("const_decl_part"), None), true);
  }

  lemma BlockItemsA(g: Grammar)
    requires g.lex == PascalLex
    requires "const_decl_part" in g.rules
    ensures ConvItem(g, "block", Tuple("optional", Ref("const_decl_part"), None), true) == Ok(Optional(None, RuleRef("const_decl_part")))
  {
    BlockAt0(g);
  }

  lemma BlockAt1(g: Grammar)
    requires g.lex == PascalLex
    requires "var_decl_part" in g.rules
    ensures ConvItem(g, "block", Tuple("optional", Ref("var_decl_part"), None), true) == Ok(Optional(None, RuleRef("var_decl_part")))
  {
    RuleItem(g, "block", "var_decl_part", false);
    OptionalTuple(g, "block", None, Ref("var_decl_part"), RuleRef("var_decl_part"));
    TupleItem(g, "block", Tuple("optional", Ref("var_decl_part"), None), true);
  }

  lemma BlockItemsB(g: Grammar)
    requires g.lex == PascalLex
    requires "var_decl_part" in g.rules
    ensures ConvItem(g, "block", Tuple("optional", Ref("var_decl_part"), None), true) == Ok(Optional(None, RuleRef("var_decl_part")))
  {
    BlockAt1(g);
  }

  lemma BlockAt2SubSubItemsA(g: Grammar)
    requires g.lex == PascalLex
    requires "func_decl" in g.rules
    ensures ConvItem(g, "block", Ref("func_decl"), false) == Ok(RuleRef("func_decl"))
  {
    RuleItem(g, "block", "func_decl", false);
  }

  lemma BlockAt2SubSubItemsB(g: Grammar)
    requires g.lex == PascalLex
    requires "proc_decl" in g.rules
    ensures ConvItem(g, "block", Ref("proc_decl"), false) == Ok(RuleRef("proc_decl"))
  {
    RuleItem(g, "block", "proc_decl", false);
  }

  lemma BlockAt2SubSub(g: Grammar)
    requires g.lex == PascalLex
    requires "func_decl" in g.rules && "proc_decl" in g.rules
    ensures ConvItem(g, "block", Tuple("either", List([Ref("func_decl"), Ref("proc_decl")]), None), false) == Ok(Either(None, [RuleRef("func_decl"), RuleRef("proc_decl")]))
  {
    BlockAt2SubSubItemsA(g);
    BlockAt2SubSubItemsB(g);
    ListOf2(g, "block", false, Ref("func_decl"), Ref("proc_decl"), RuleRef("func_decl"), RuleRef("proc_decl"));
    EitherTuple(g, "block", None, [Ref("func_decl"), Ref("proc_decl")], [RuleRef("func_decl"), RuleRef("proc_decl")]);
    TupleItem(g, "block", Tuple("either", List([Ref("func_decl"), Ref("proc_decl")]), None), false);
  }

  lemma BlockAt2Sub(g: Grammar)
    requires g.lex == PascalLex
    requires "func_decl" in g.rules && "proc_decl" in g.rules
    ensures ConvItem(g, "block", Tuple("one_plus", Tuple("either", List([Ref("func_decl"), Ref("proc_decl")]), None), None), false) == Ok(Repeat(None, OnePlus, Either(None, [RuleRef("func_decl"), RuleRef("proc_decl")]), None))
  {
    RepeatKindNames();
    BlockAt2SubSub(g);
    RepeatTuple(g, "block", None, OnePlus, Tuple("either", List([Ref("func_decl"), Ref("proc_decl")]), None), Either(None, [RuleRef("func_decl"), RuleRef("proc_decl")]));
    TupleItem(g, "block", Tuple("one_plus", Tuple("either", List([Ref("func_decl"), Ref("proc_decl")]), None), None), false);
  }

  lemma BlockAt2(g: Grammar)
    requires g.lex == PascalLex
    requires "func_decl" in g.rules && "proc_decl" in g.rules
    ensures ConvItem(g, "block", Tuple("optional", Tuple("one_plus", Tuple("either", List([Ref("func_decl"), Ref("proc_decl")]), None), None), None), true) == Ok(Optional(None, Repeat(None, OnePlus, Either(None, [RuleRef("func_decl"), RuleRef("proc_decl")]), None)))
  {
    BlockAt2Sub(g);
    OptionalTuple(g, "block", None, Tuple("one_plus", Tuple("either", List([Ref("func_decl"), Ref("proc_decl")]), None), None), Repeat(None, OnePlus, Either(None, [RuleRef("func_decl"), RuleRef("proc_decl")]), None));
    TupleItem(g, "block", Tuple("optional", Tuple("one_plus", Tuple("either", List([Ref("func_decl"), Ref("proc_decl")]), None), None), None), true);
  }

  lemma BlockItemsC(g: Grammar)
    requires g.lex == PascalLex
    requires "func_decl" in g.rules && "proc_decl" in g.rules
    ensures ConvItem(g, "block", Tuple("optional", Tuple("one_plus", Tuple("either", List([Ref("func_decl"), Ref("proc_decl")]), None), None), None), true) == Ok(Optional(None, Repeat(None, OnePlus, Either(None, [RuleRef("func_decl"), RuleRef("proc_decl")]), None)))
  {
    BlockAt2(g);
  }

  lemma BlockItemsD(g: Grammar)
    requires g.lex == PascalLex
    ensures ConvItem(g, "block", Ref("word:begin"), true) == Ok(Lex("word", Some("begin")))
  {
    BlockItemsDRefs();
    ValuedTokenItem(g, "block", "word:begin", "word", "begin", true);
  }

  lemma BlockItemsE(g: Grammar)
    requires g.lex == PascalLex
    requires "stmt_list" in g.rules
    ensures ConvItem(g, "block", Ref("stmt_list"), true) == Ok(RuleRef("stmt_list"))
  {
    RuleItem(g, "block", "stmt_list", true);
  }

  lemma BlockItemsF(g: Grammar)
    requires g.lex == PascalLex
    ensures ConvItem(g, "block", Ref("word:end"), true) == Ok(Lex("word", Some("end")))
  {
    BlockItemsFRefs();
    ValuedTokenItem(g, "block", "word:end", "word", "end", true);
  }

  /** Optional parts, one of them an optional repetition of an untagged
      choice, around a rule edge to the statement list. */
  lemma BlockRule(g: Grammar)
    requires g.lex == PascalLex && "block" in g.rules && g.rules["block"] == BlockDef
    requires "const_decl_part" in g.rules && "var_decl_part" in g.rules && "func_decl" in g.rules
    requires "proc_decl" in g.rules && "stmt_list" in g.rules
    ensures ConvRule(g, "block") == Ok(BlockNode)
  {
    BlockItemsA(g);
    BlockItemsB(g);
    BlockItemsC(g);
    BlockItemsD(g);
    BlockItemsE(g);
    BlockItemsF(g);
    ListOf6(g, "block", true, Tuple("optional", Ref("const_decl_part"), None), Tuple("optional", Ref("var_decl_part"), None), Tuple("optional", Tuple("one_plus", Tuple("either", List([Ref("func_decl"), Ref("proc_decl")]), None), None), None), Ref("word:begin"), Ref("stmt_list"), Ref("word:end"), Optional(None, RuleRef("const_decl_part")), Optional(None, RuleRef("var_decl_part")), Optional(None, Repeat(None, OnePlus, Either(None, [RuleRef("func_decl"), RuleRef("proc_decl")]), None)), Lex("word", Some("begin")), RuleRef("stmt_list"), Lex("word", Some("end")));
    SequenceTuple(g, "block", Some("block"), [Tuple("optional", Ref("const_decl_part"), None), Tuple("optional", Ref("var_decl_part"), None), Tuple("optional", Tuple("one_plus", Tuple("either", List([Ref("func_decl"), Ref("proc_decl")]), None), None), None), Ref("word:begin"), Ref("stmt_list"), Ref("word:end")], [Optional(None, RuleRef("const_decl_part")), Optional(None, RuleRef("var_decl_part")), Optional(None, Repeat(None, OnePlus, Either(None, [RuleRef("func_decl"), RuleRef("proc_decl")]), None)), Lex("word", Some("begin")), RuleRef("stmt_list"), Lex("word", Some("end"))]);
    TupleRule(g, "block");
  }

  lemma ConstDeclPartItemsA(g: Grammar)
    requires g.lex == PascalLex
    ensures ConvItem(g, "const_decl_part", Ref("word:const"), true) == Ok(Lex("word", Some("const")))
  {
    ConstDeclPartItemsARefs();
    ValuedTokenItem(g, "const_decl_part", "word:const", "word", "const", true);
  }

  lemma ConstDeclPartItemsB(g: Grammar)
    requires g.lex == PascalLex
    ensures ConvItem(g, "const_decl_part", Ref("VERIFIED"), true) == Ok(Verified)
  {
    VerifiedItem(g, "const_decl_part");
  }

  lemma ConstDeclPartAt2(g: Grammar)
    requires g.lex == PascalLex
    requires "const_decl" in g.rules
    ensures ConvItem(g, "const_decl_part", Tuple("one_plus", Ref("const_decl"), None), true) == Ok(Repeat(None, OnePlus, RuleRef("const_decl"), None))
  {
    RepeatKindNames();
    RuleItem(g, "const_decl_part", "const_decl", false);
    RepeatTuple(g, "const_decl_part", None, OnePlus, Ref("const_decl"), RuleRef("const_decl"));
    TupleItem(g, "const_decl_part", Tuple("one_plus", Ref("const_decl"), None), true);
  }

  lemma ConstDeclPartItemsC(g: Grammar)
    requires g.lex == PascalLex
    requires "const_decl" in g.rules
    ensures ConvItem(g, "const_decl_part", Tuple("one_plus", Ref("const_decl"), None), true) == Ok(Repeat(None, OnePlus, RuleRef("const_decl"), None))
  {
    ConstDeclPartAt2(g);
  }

  /** The verified marker, a sequence item, becomes a verified node. */
  lemma ConstDeclPartRule(g: Grammar)
    requires g.lex == PascalLex && "const_decl_part" in g.rules && g.rules["const_decl_part"] == ConstDeclPartDef
    requires "const_decl" in g.rules
    ensures ConvRule(g, "const_decl_part") == Ok(ConstDeclPartNode)
  {
    ConstDeclPartItemsA(g);
    ConstDeclPartItemsB(g);
    ConstDeclPartItemsC(g);
    ListOf3(g, "const_decl_part", true, Ref("word:const"), Ref("VERIFIED"), Tuple("one_plus", Ref("const_decl"), None), Lex("word", Some("const")), Verified, Repeat(None, OnePlus, RuleRef("const_decl"), None));
    SequenceTuple(g, "const_decl_part", Some("const_decl_part"), [Ref("word:const"), Ref("VERIFIED"), Tuple("one_plus", Ref("const_decl"), None)], [Lex("word", Some("const")), Verified, Repeat(None, OnePlus, RuleRef("const_decl"), None)]);
    TupleRule(g, "const_decl_part");
  }

  lemma ConstDeclItemsA(g: Grammar)
    requires g.lex == PascalLex
    requires "name" in g.rules
    ensures ConvItem(g, "const_decl", Ref("name"), true) == Ok(RuleRef("name"))
  {
    RuleItem(g, "const_decl", "name", true);
  }

  lemma ConstDeclItemsB(g: Grammar)
    requires g.lex == PascalLex
    ensures ConvItem(g, "const_decl", Ref("symbol:="), true) == Ok(Lex("symbol", Some("=")))
  {
    ConstDeclItemsBRefs();
    ValuedTokenItem(g, "const_decl", "symbol:=", "symbol", "=", true);
  }

  lemma ConstDeclItemsC(g: Grammar)
    requires g.lex == PascalLex
    requires "constant" in g.rules
    ensures ConvItem(g, "const_decl", Ref("constant"), true) == Ok(RuleRef("constant"))
  {
    RuleItem(g, "const_decl", "constant", true);
  }

  lemma ConstDeclItemsD(g: Grammar)
    requires g.lex == PascalLex
    ensures ConvItem(g, "const_decl", Ref("symbol:;"), true) == Ok(Lex("symbol", Some(";")))
  {
    ConstDeclItemsDRefs();
    ValuedTokenItem(g, "const_decl", "symbol:;", "symbol", ";", true);
  }

  lemma ConstDeclRule(g: Grammar)
    requires g.lex == PascalLex && "const_decl" in g.rules && g.rules["const_decl"] == ConstDeclDef
    requires "name" in g.rules && "constant" in g.rules
    ensures ConvRule(g, "const_decl") == Ok(ConstDeclNode)
  {
    ConstDeclItemsA(g);
    ConstDeclItemsB(g);
    ConstDeclItemsC(g);
    ConstDeclItemsD(g);
    ListOf4(g, "const_decl", true, Ref("name"), Ref("symbol:="), Ref("constant"), Ref("symbol:;"), RuleRef("name"), Lex("symbol", Some("=")), RuleRef("constant"), Lex("symbol", Some(";")));
    SequenceTuple(g, "const_decl", Some("const_decl"), [Ref("name"), Ref("symbol:="), Ref("constant"), Ref("symbol:;")], [RuleRef("name"), Lex("symbol", Some("=")), RuleRef("constant"), Lex("symbol", Some(";"))]);
    TupleRule(g, "const_decl");
  }

  lemma ConstantAt0(g: Grammar)
    requires g.lex == PascalLex
    requires "prefix_opr" in g.rules
    ensures ConvItem(g, "constant", Tuple("optional", Ref("prefix_opr"), None), true) == Ok(Optional(None, RuleRef("prefix_opr")))
  {
    RuleItem(g, "constant", "prefix_opr", false);
    OptionalTuple(g, "constant", None, Ref("prefix_opr"), RuleRef("prefix_opr"));
    TupleItem(g, "constant", Tuple("optional", Ref("prefix_opr"), None), true);
  }

  lemma ConstantItemsA(g: Grammar)
    requires g.lex == PascalLex
    requires "prefix_opr" in g.rules
    ensures ConvItem(g, "constant", Tuple("optional", Ref("prefix_opr"), None), true) == Ok(Optional(None, RuleRef("prefix_opr")))
  {
    ConstantAt0(g);
  }

  lemma ConstantItemsB(g: Grammar)
    requires g.lex == PascalLex
    requires "unsigned_constant" in g.rules
    ensures ConvItem(g, "constant", Ref("unsigned_constant"), true) == Ok(RuleRef("unsigned_constant"))
  {
    RuleItem(g, "constant", "unsigned_constant", true);
  }

  lemma ConstantRule(g: Grammar)
    requires g.lex == PascalLex && "constant" in g.rules && g.rules["constant"] == ConstantDef
    requires "prefix_opr" in g.rules && "unsigned_constant" in g.rules
    ensures ConvRule(g, "constant") == Ok(ConstantNode)
  {
    ConstantItemsA(g);
    ConstantItemsB(g);
    ListOf2(g, "constant", true, Tuple("optional", Ref("prefix_opr"), None), Ref("unsigned_constant"), Optional(None, RuleRef("prefix_opr")), RuleRef("unsigned_constant"));
    SequenceTuple(g, "constant", Some("constant"), [Tuple("optional", Ref("prefix_opr"), None), Ref("unsigned_constant")], [Optional(None, RuleRef("prefix_opr")), RuleRef("unsigned_constant")]);
    TupleRule(g, "constant");
  }

  lemma UnsignedConstantItemsA(g: Grammar)
    requires g.lex == PascalLex
    requires "name" in g.rules
    ensures ConvItem(g, "unsigned_constant", Ref("name"), false) == Ok(RuleRef("name"))
  {
    RuleItem(g, "unsigned_constant", "name", false);
  }

  lemma UnsignedConstantItemsB(g: Grammar)
    requires g.lex == PascalLex
    ensures ConvItem(g, "unsigned_constant", Ref("numeric_literal"), false) == Ok(Lex("numeric_literal", None))
  {
    TokenItem(g, "unsigned_constant", "numeric_literal", false);
  }

  lemma UnsignedConstantItemsC(g: Grammar)
    requires g.lex == PascalLex
    ensures ConvItem(g, "unsigned_constant", Ref("char_literal"), false) == Ok(Lex("char_literal", None))
  {
    TokenItem(g, "unsigned_constant", "char_literal", false);
  }

  lemma UnsignedConstantRule(g: Grammar)
    requires g.lex == PascalLex && "unsigned_constant" in g.rules && g.rules["unsigned_constant"] == UnsignedConstantDef
    requires "name" in g.rules
    ensures ConvRule(g, "unsigned_constant") == Ok(UnsignedConstantNode)
  {
    UnsignedConstantItemsA(g);
    UnsignedConstantItemsB(g);
    UnsignedConstantItemsC(g);
    ListOf3(g, "unsigned_constant", false, Ref("name"), Ref("numeric_literal"), Ref("char_literal"), RuleRef("name"), Lex("numeric_literal", None), Lex("char_literal", None));
    EitherTuple(g, "unsigned_constant", Some("unsigned_constant"), [Ref("name"), Ref("numeric_literal"), Ref("char_literal")], [RuleRef("name"), Lex("numeric_literal", None), Lex("char_literal", None)]);
    TupleRule(g, "unsigned_constant");
  }

  lemma PrefixOprItemsA(g: Grammar)
    requires g.lex == PascalLex
    ensures ConvItem(g, "prefix_opr", Ref("symbol:+"), false) == Ok(Lex("symbol", Some("+")))
  {
    PrefixOprItemsARefs();
    ValuedTokenItem(g, "prefix_opr", "symbol:+", "symbol", "+", false);
  }

  lemma PrefixOprItemsB(g: Grammar)
    requires g.lex == PascalLex
    ensures ConvItem(g, "prefix_opr", Ref("symbol:-"), false) == Ok(Lex("symbol", Some("-")))
  {
    PrefixOprItemsBRefs();
    ValuedTokenItem(g, "prefix_opr", "symbol:-", "symbol", "-", false);
  }

  lemma PrefixOprRule(g: Grammar)
    requires g.lex == PascalLex && "prefix_opr" in g.rules && g.rules["prefix_opr"] == PrefixOprDef
    ensures ConvRule(g, "prefix_opr") == Ok(PrefixOprNode)
  {
    PrefixOprItemsA(g);
    PrefixOprItemsB(g);
    ListOf2(g, "prefix_opr", false, Ref("symbol:+"), Ref("symbol:-"), Lex("symbol", Some("+")), Lex("symbol", Some("-")));
    EitherTuple(g, "prefix_opr", Some("prefix_opr"), [Ref("symbol:+"), Ref("symbol:-")], [Lex("symbol", Some("+")), Lex("symbol", Some("-"))]);
    TupleRule(g, "prefix_opr");
  }

  lemma VarDeclPartItemsA(g: Grammar)
    requires g.lex == PascalLex
    ensures ConvItem(g, "var_decl_part", Ref("word:var"), true) == Ok(Lex("word", Some("var")))
  {
    VarDeclPartItemsARefs();
    ValuedTokenItem(g, "var_decl_part", "word:var", "word", "var", true);
  }

  lemma VarDeclPartItemsB(g: Grammar)
    requires g.lex == PascalLex
    ensures ConvItem(g, "var_decl_part", Ref("VERIFIED"), true) == Ok(Verified)
  {
    VerifiedItem(g, "var_decl_part");
  }

  lemma VarDeclPartAt2(g: Grammar)
    requires g.lex == PascalLex
    requires "var_decl" in g.rules
    ensures ConvItem(g, "var_decl_part", Tuple("one_plus", Ref("var_decl"), None), true) == Ok(Repeat(None, OnePlus, RuleRef("var_decl"), None))
  {
    RepeatKindNames();
    RuleItem(g, "var_decl_part", "var_decl", false);
    RepeatTuple(g, "var_decl_part", None, OnePlus, Ref("var_decl"), RuleRef("var_decl"));
    TupleItem(g, "var_decl_part", Tuple("one_plus", Ref("var_decl"), None), true);
  }

  lemma VarDeclPartItemsC(g: Grammar)
    requires g.lex == PascalLex
    requires "var_decl" in g.rules
    ensures ConvItem(g, "var_decl_part", Tuple("one_plus", Ref("var_decl"), None), true) == Ok(Repeat(None, OnePlus, RuleRef("var_decl"), None))
  {
    VarDeclPartAt2(g);
  }

  /** The verified marker, a sequence item, becomes a verified node. */
  lemma VarDeclPartRule(g: Grammar)
    requires g.lex == PascalLex && "var_decl_part" in g.rules && g.rules["var_decl_part"] == VarDeclPartDef
    requires "var_decl" in g.rules
    ensures ConvRule(g, "var_decl_part") == Ok(VarDeclPartNode)
  {
    VarDeclPartItemsA(g);
    VarDeclPartItemsB(g);
    VarDeclPartItemsC(g);
    ListOf3(g, "var_decl_part", true, Ref("word:var"), Ref("VERIFIED"), Tuple("one_plus", Ref("var_decl"), None), Lex("word", Some("var")), Verified, Repeat(None, OnePlus, RuleRef("var_decl"), None));
    SequenceTuple(g, "var_decl_part", Some("var_decl_part"), [Ref("word:var"), Ref("VERIFIED"), Tuple("one_plus", Ref("var_decl"), None)], [Lex("word", Some("var")), Verified, Repeat(None, OnePlus, RuleRef("var_decl"), None)]);
    TupleRule(g, "var_decl_part");
  }

  lemma VarDeclItemsA(g: Grammar)
    requires g.lex == PascalLex
    requires "name" in g.rules
    ensures ConvItem(g, "var_decl", Ref("name"), true) == Ok(RuleRef("name"))
  {
    RuleItem(g, "var_decl", "name", true);
  }

  lemma VarDeclItemsB(g: Grammar)
    requires g.lex == PascalLex
    ensures ConvItem(g, "var_decl", Ref("symbol::"), true) == Ok(Lex("symbol", Some(":")))
  {
    VarDeclItemsBRefs();
    ValuedTokenItem(g, "var_decl", "symbol::", "symbol", ":", true);
  }

  lemma VarDeclItemsC(g: Grammar)
    requires g.lex == PascalLex
    requires "type" in g.rules
    ensures ConvItem(g, "var_decl", Ref("type"), true) == Ok(RuleRef("type"))
  {
    RuleItem(g, "var_decl", "type", true);
  }

  lemma VarDeclItemsD(g: Grammar)
    requires g.lex == PascalLex
    ensures ConvItem(g, "var_decl", Ref("symbol:;"), true) == Ok(Lex("symbol", Some(";")))
  {
    VarDeclItemsDRefs();
    ValuedTokenItem(g, "var_decl", "symbol:;", "symbol", ";", true);
  }

  /** `symbol::` splits at its first colon: a symbol whose value is `:`. */
  lemma VarDeclRule(g: Grammar)
    requires g.lex == PascalLex && "var_decl" in g.rules && g.rules["var_decl"] == VarDeclDef
    requires "name" in g.rules && "type" in g.rules
    ensures ConvRule(g, "var_decl") == Ok(VarDeclNode)
  {
    VarDeclItemsA(g);
    VarDeclItemsB(g);
    VarDeclItemsC(g);
    VarDeclItemsD(g);
    ListOf4(g, "var_decl", true, Ref("name"), Ref("symbol::"), Ref("type"), Ref("symbol:;"), RuleRef("name"), Lex("symbol", Some(":")), RuleRef("type"), Lex("symbol", Some(";")));
    SequenceTuple(g, "var_decl", Some("var_decl"), [Ref("name"), Ref("symbol::"), Ref("type"), Ref("symbol:;")], [RuleRef("name"), Lex("symbol", Some(":")), RuleRef("type"), Lex("symbol", Some(";"))]);
    TupleRule(g, "var_decl");
  }

  lemma TypeNameRule(g: Grammar)
    requires g.lex == PascalLex && "type_name" in g.rules && g.rules["type_name"] == TypeNameDef
    requires "name" in g.rules
    ensures ConvRule(g, "type_name") == Ok(TypeNameNode)
  {
    RuleItem(g, "type_name", "name", false);
    OneTuple(g, "type_name", Some("type_name"), Ref("name"), RuleRef("name"));
    TupleRule(g, "type_name");
  }

  lemma ArrayTypeItemsA(g: Grammar)
    requires g.lex == PascalLex
    ensures ConvItem(g, "array_type", Ref("word:array"), true) == Ok(Lex("word", Some("array")))
  {
    ArrayTypeItemsARefs();
    ValuedTokenItem(g, "array_type", "word:array", "word", "array", true);
  }

  lemma ArrayTypeItemsB(g: Grammar)
    requires g.lex == PascalLex
    ensures ConvItem(g, "array_type", Ref("symbol:["), true) == Ok(Lex("symbol", Some("[")))
  {
    ArrayTypeItemsBRefs();
    ValuedTokenItem(g, "array_type", "symbol:[", "symbol", "[", true);
  }

  lemma ArrayTypeItemsC(g: Grammar)
    requires g.lex == PascalLex
    requires "constant" in g.rules
    ensures ConvItem(g, "array_type", Ref("constant"), true) == Ok(RuleRef("constant"))
  {
    RuleItem(g, "array_type", "constant", true);
  }

  lemma ArrayTypeItemsD(g: Grammar)
    requires g.lex == PascalLex
    ensures ConvItem(g, "array_type", Ref("symbol:.."), true) == Ok(Lex("symbol", Some("..")))
  {
    ArrayTypeItemsDRefs();
    ValuedTokenItem(g, "array_type", "symbol:..", "symbol", "..", true);
  }

  lemma ArrayTypeItemsE(g: Grammar)
    requires g.lex == PascalLex
    requires "constant" in g.rules
    ensures ConvItem(g, "array_type", Ref("constant"), true) == Ok(RuleRef("constant"))
  {
    RuleItem(g, "array_type", "constant", true);
  }

  lemma ArrayTypeItemsF(g: Grammar)
    requires g.lex == PascalLex
    ensures ConvItem(g, "array_type", Ref("symbol:]"), true) == Ok(Lex("symbol", Some("]")))
  {
    ArrayTypeItemsFRefs();
    ValuedTokenItem(g, "array_type", "symbol:]", "symbol", "]", true);
  }

  lemma ArrayTypeItemsG(g: Grammar)
    requires g.lex == PascalLex
    ensures ConvItem(g, "array_type", Ref("word:of"), true) == Ok(Lex("word", Some("of")))
  {
    ArrayTypeItemsGRefs();
    ValuedTokenItem(g, "array_type", "word:of", "word", "of", true);
  }

  lemma ArrayTypeItemsH(g: Grammar)
    requires g.lex == PascalLex
    requires "type" in g.rules
    ensures ConvItem(g, "array_type", Ref("type"), true) == Ok(RuleRef("type"))
  {
    RuleItem(g, "array_type", "type", true);
  }

  /** `symbol:..` is a symbol whose value is `..`; this rule converts although
      no rule reaches it. */
  lemma ArrayTypeRule(g: Grammar)
    requires g.lex == PascalLex && "array_type" in g.rules && g.rules["array_type"] == ArrayTypeDef
    requires "constant" in g.rules && "type" in g.rules
    ensures ConvRule(g, "array_type") == Ok(ArrayTypeNode)
  {
    ArrayTypeItemsA(g);
    ArrayTypeItemsB(g);
    ArrayTypeItemsC(g);
    ArrayTypeItemsD(g);
    ArrayTypeItemsE(g);
    ArrayTypeItemsF(g);
    ArrayTypeItemsG(g);
    ArrayTypeItemsH(g);
    ListOf8(g, "array_type", true, Ref("word:array"), Ref("symbol:["), Ref("constant"), Ref("symbol:.."), Ref("constant"), Ref("symbol:]"), Ref("word:of"), Ref("type"), Lex("word", Some("array")), Lex("symbol", Some("[")), RuleRef("constant"), Lex("symbol", Some("..")), RuleRef("constant"), Lex("symbol", Some("]")), Lex("word", Some("of")), RuleRef("type"));
    SequenceTuple(g, "array_type", Some("array_type"), [Ref("word:array"), Ref("symbol:["), Ref("constant"), Ref("symbol:.."), Ref("constant"), Ref("symbol:]"), Ref("word:of"), Ref("type")], [Lex("word", Some("array")), Lex("symbol", Some("[")), RuleRef("constant"), Lex("symbol", Some("..")), RuleRef("constant"), Lex("symbol", Some("]")), Lex("word", Some("of")), RuleRef("type")]);
    TupleRule(g, "array_type");
  }

  lemma FuncDeclItemsA(g: Grammar)
    requires g.lex == PascalLex
    ensures ConvItem(g, "func_decl", Ref("word:function"), true) == Ok(Lex("word", Some("function")))
  {
    FuncDeclItemsARefs();
    ValuedTokenItem(g, "func_decl", "word:function", "word", "function", true);
  }

  lemma FuncDeclItemsB(g: Grammar)
    requires g.lex == PascalLex
    requires "name" in g.rules
    ensures ConvItem(g, "func_decl", Ref("name"), true) == Ok(RuleRef("name"))
  {
    RuleItem(g, "func_decl", "name", true);
  }

  lemma FuncDeclAt2(g: Grammar)
    requires g.lex == PascalLex
    requires "param_decl_list" in g.rules
    ensures ConvItem(g, "func_decl", Tuple("optional", Ref("param_decl_list"), None), true) == Ok(Optional(None, RuleRef("param_decl_list")))
  {
    RuleItem(g, "func_decl", "param_decl_list", false);
    OptionalTuple(g, "func_decl", None, Ref("param_decl_list"), RuleRef("param_decl_list"));
    TupleItem(g, "func_decl", Tuple("optional", Ref("param_decl_list"), None), true);
  }

  lemma FuncDeclItemsC(g: Grammar)
    requires g.lex == PascalLex
    requires "param_decl_list" in g.rules
    ensures ConvItem(g, "func_decl", Tuple("optional", Ref("param_decl_list"), None), true) == Ok(Optional(None, RuleRef("param_decl_list")))
  {
    FuncDeclAt2(g);
  }

  lemma FuncDeclItemsD(g: Grammar)
    requires g.lex == PascalLex
    ensures ConvItem(g, "func_decl", Ref("symbol::"), true) == Ok(Lex("symbol", Some(":")))
  {
    FuncDeclItemsDRefs();
    ValuedTokenItem(g, "func_decl", "symbol::", "symbol", ":", true);
  }

  lemma FuncDeclItemsE(g: Grammar)
    requires g.lex == PascalLex
    requires "type_name" in g.rules
    ensures ConvItem(g, "func_decl", Ref("type_name"), true) == Ok(RuleRef("type_name"))
  {
    RuleItem(g, "func_decl", "type_name", true);
  }

  lemma FuncDeclItemsF(g: Grammar)
    requires g.lex == PascalLex
    ensures ConvItem(g, "func_decl", Ref("symbol:;"), true) == Ok(Lex("symbol", Some(";")))
  {
    FuncDeclItemsFRefs();
    ValuedTokenItem(g, "func_decl", "symbol:;", "symbol", ";", true);
  }

  lemma FuncDeclItemsG(g: Grammar)
    requires g.lex == PascalLex
    requires "block" in g.rules
    ensures ConvItem(g, "func_decl", Ref("block"), true) == Ok(RuleRef("block"))
  {
    RuleItem(g, "func_decl", "block", true);
  }

  lemma FuncDeclItemsH(g: Grammar)
    requires g.lex == PascalLex
    ensures ConvItem(g, "func_decl", Ref("symbol:;"), true) == Ok(Lex("symbol", Some(";")))
  {
    FuncDeclItemsHRefs();
    ValuedTokenItem(g, "func_decl", "symbol:;", "symbol", ";", true);
  }

  lemma FuncDeclRule(g: Grammar)
    requires g.lex == PascalLex && "func_decl" in g.rules && g.rules["func_decl"] == FuncDeclDef
    requires "name" in g.rules && "param_decl_list" in g.rules && "type_name" in g.rules
    requires "block" in g.rules
    ensures ConvRule(g, "func_decl") == Ok(FuncDeclNode)
  {
    FuncDeclItemsA(g);
    FuncDeclItemsB(g);
    FuncDeclItemsC(g);
    FuncDeclItemsD(g);
    FuncDeclItemsE(g);
    FuncDeclItemsF(g);
    FuncDeclItemsG(g);
    FuncDeclItemsH(g);
    ListOf8(g, "func_decl", true, Ref("word:function"), Ref("name"), Tuple("optional", Ref("param_decl_list"), None), Ref("symbol::"), Ref("type_name"), Ref("symbol:;"), Ref("block"), Ref("symbol:;"), Lex("word", Some("function")), RuleRef("name"), Optional(None, RuleRef("param_decl_list")), Lex("symbol", Some(":")), RuleRef("type_name"), Lex("symbol", Some(";")), RuleRef("block"), Lex("symbol", Some(";")));
    SequenceTuple(g, "func_decl", Some("func_decl"), [Ref("word:function"), Ref("name"), Tuple("optional", Ref("param_decl_list"), None), Ref("symbol::"), Ref("type_name"), Ref("symbol:;"), Ref("block"), Ref("symbol:;")], [Lex("word", Some("function")), RuleRef("name"), Optional(None, RuleRef("param_decl_list")), Lex("symbol", Some(":")), RuleRef("type_name"), Lex("symbol", Some(";")), RuleRef("block"), Lex("symbol", Some(";"))]);
    TupleRule(g, "func_decl");
  }

  lemma ProcDeclItemsA(g: Grammar)
    requires g.lex == PascalLex
    ensures ConvItem(g, "proc_decl", Ref("word:procedure"), true) == Ok(Lex("word", Some("procedure")))
  {
    ProcDeclItemsARefs();
    ValuedTokenItem(g, "proc_decl", "word:procedure", "word", "procedure", true);
  }

  lemma ProcDeclItemsB(g: Grammar)
    requires g.lex == PascalLex
    requires "name" in g.rules
    ensures ConvItem(g, "proc_decl", Ref("name"), true) == Ok(RuleRef("name"))
  {
    RuleItem(g, "proc_decl", "name", true);
  }

  lemma ProcDeclAt2(g: Grammar)
    requires g.lex == PascalLex
    requires "param_decl_list" in g.rules
    ensures ConvItem(g, "proc_decl", Tuple("optional", Ref("param_decl_list"), None), true) == Ok(Optional(None, RuleRef("param_decl_list")))
  {
    RuleItem(g, "proc_decl", "param_decl_list", false);
    OptionalTuple(g, "proc_decl", None, Ref("param_decl_list"), RuleRef("param_decl_list"));
    TupleItem(g, "proc_decl", Tuple("optional", Ref("param_decl_list"), None), true);
  }

  lemma ProcDeclItemsC(g: Grammar)
    requires g.lex == PascalLex
    requires "param_decl_list" in g.rules
    ensures ConvItem(g, "proc_decl", Tuple("optional", Ref("param_decl_list"), None), true) == Ok(Optional(None, RuleRef("param_decl_list")))
  {
    ProcDeclAt2(g);
  }

  lemma ProcDeclItemsD(g: Grammar)
    requires g.lex == PascalLex
    ensures ConvItem(g, "proc_decl", Ref("symbol:;"), true) == Ok(Lex("symbol", Some(";")))
  {
    ProcDeclItemsDRefs();
    ValuedTokenItem(g, "proc_decl", "symbol:;", "symbol", ";", true);
  }

  lemma ProcDeclItemsE(g: Grammar)
    requires g.lex == PascalLex
    requires "block" in g.rules
    ensures ConvItem(g, "proc_decl", Ref("block"), true) == Ok(RuleRef("block"))
  {
    RuleItem(g, "proc_decl", "block", true);
  }

  lemma ProcDeclItemsF(g: Grammar)
    requires g.lex == PascalLex
    ensures ConvItem(g, "proc_decl", Ref("symbol:;"), true) == Ok(Lex("symbol", Some(";")))
  {
    ProcDeclItemsFRefs();
    ValuedTokenItem(g, "proc_decl", "symbol:;", "symbol", ";", true);
  }

  lemma ProcDeclRule(g: Grammar)
    requires g.lex == PascalLex && "proc_decl" in g.rules && g.rules["proc_decl"] == ProcDeclDef
    requires "name" in g.rules && "param_decl_list" in g.rules && "block" in g.rules
    ensures ConvRule(g, "proc_decl") == Ok(ProcDeclNode)
  {
    ProcDeclItemsA(g);
    ProcDeclItemsB(g);
    ProcDeclItemsC(g);
    ProcDeclItemsD(g);
    ProcDeclItemsE(g);
    ProcDeclItemsF(g);
    ListOf6(g, "proc_decl", true, Ref("word:procedure"), Ref("name"), Tuple("optional", Ref("param_decl_list"), None), Ref("symbol:;"), Ref("block"), Ref("symbol:;"), Lex("word", Some("procedure")), RuleRef("name"), Optional(None, RuleRef("param_decl_list")), Lex("symbol", Some(";")), RuleRef("block"), Lex("symbol", Some(";")));
    SequenceTuple(g, "proc_decl", Some("proc_decl"), [Ref("word:procedure"), Ref("name"), Tuple("optional", Ref("param_decl_list"), None), Ref("symbol:;"), Ref("block"), Ref("symbol:;")], [Lex("word", Some("procedure")), RuleRef("name"), Optional(None, RuleRef("param_decl_list")), Lex("symbol", Some(";")), RuleRef("block"), Lex("symbol", Some(";"))]);
    TupleRule(g, "proc_decl");
  }

  lemma ParamDeclListItemsA(g: Grammar)
    requires g.lex == PascalLex
    ensures ConvItem(g, "param_decl_list", Ref("symbol:("), true) == Ok(Lex("symbol", Some("(")))
  {
    ParamDeclListItemsARefs();
    ValuedTokenItem(g, "param_decl_list", "symbol:(", "symbol", "(", true);
  }

  lemma ParamDeclListAt1ItemsA(g: Grammar)
    requires g.lex == PascalLex
    requires "param_decl" in g.rules
    ensures ConvItem(g, "param_decl_list", Ref("param_decl"), false) == Ok(RuleRef("param_decl"))
  {
    RuleItem(g, "param_decl_list", "param_decl", false);
  }

  lemma ParamDeclListAt1ItemsB(g: Grammar)
    requires g.lex == PascalLex
    ensures ConvItem(g, "param_decl_list", Ref("symbol:;"), false) == Ok(Lex("symbol", Some(";")))
  {
    ParamDeclListAt1ItemsBRefs();
    ValuedTokenItem(g, "param_decl_list", "symbol:;", "symbol", ";", false);
  }

  lemma ParamDeclListAt1(g: Grammar)
    requires g.lex == PascalLex
    requires "param_decl" in g.rules
    ensures ConvItem(g, "param_decl_list", Tuple("one_plus", Ref("param_decl"), Some(Ref("symbol:;"))), true) == Ok(Repeat(None, OnePlus, RuleRef("param_decl"), Some(Lex("symbol", Some(";")))))
  {
    RepeatKindNames();
    ParamDeclListAt1ItemsA(g);
    ParamDeclListAt1ItemsB(g);
    DelimitedRepeatTuple(g, "param_decl_list", None, OnePlus, Ref("param_decl"), Ref("symbol:;"), RuleRef("param_decl"), Lex("symbol", Some(";")));
    TupleItem(g, "param_decl_list", Tuple("one_plus", Ref("param_decl"), Some(Ref("symbol:;"))), true);
  }

  lemma ParamDeclListItemsB(g: Grammar)
    requires g.lex == PascalLex
    requires "param_decl" in g.rules
    ensures ConvItem(g, "param_decl_list", Tuple("one_plus", Ref("param_decl"), Some(Ref("symbol:;"))), true) == Ok(Repeat(None, OnePlus, RuleRef("param_decl"), Some(Lex("symbol", Some(";")))))
  {
    ParamDeclListAt1(g);
  }

  lemma ParamDeclListItemsC(g: Grammar)
    requires g.lex == PascalLex
    ensures ConvItem(g, "param_decl_list", Ref("symbol:)"), true) == Ok(Lex("symbol", Some(")")))
  {
    ParamDeclListItemsCRefs();
    ValuedTokenItem(g, "param_decl_list", "symbol:)", "symbol", ")", true);
  }

  lemma ParamDeclListRule(g: Grammar)
    requires g.lex == PascalLex && "param_decl_list" in g.rules && g.rules["param_decl_list"] == ParamDeclListDef
    requires "param_decl" in g.rules
    ensures ConvRule(g, "param_decl_list") == Ok(ParamDeclListNode)
  {
    ParamDeclListItemsA(g);
    ParamDeclListItemsB(g);
    ParamDeclListItemsC(g);
    ListOf3(g, "param_decl_list", true, Ref("symbol:("), Tuple("one_plus", Ref("param_decl"), Some(Ref("symbol:;"))), Ref("symbol:)"), Lex("symbol", Some("(")), Repeat(None, OnePlus, RuleRef("param_decl"), Some(Lex("symbol", Some(";")))), Lex("symbol", Some(")")));
    SequenceTuple(g, "param_decl_list", Some("param_decl_list"), [Ref("symbol:("), Tuple("one_plus", Ref("param_decl"), Some(Ref("symbol:;"))), Ref("symbol:)")], [Lex("symbol", Some("(")), Repeat(None, OnePlus, RuleRef("param_decl"), Some(Lex("symbol", Some(";")))), Lex("symbol", Some(")"))]);
    TupleRule(g, "param_decl_list");
  }

  lemma ParamDeclItemsA(g: Grammar)
    requires g.lex == PascalLex
    requires "name" in g.rules
    ensures ConvItem(g, "param_decl", Ref("name"), true) == Ok(RuleRef("name"))
  {
    RuleItem(g, "param_decl", "name", true);
  }

  lemma ParamDeclItemsB(g: Grammar)
    requires g.lex == PascalLex
    ensures ConvItem(g, "param_decl", Ref("symbol::"), true) == Ok(Lex("symbol", Some(":")))
  {
    ParamDeclItemsBRefs();
    ValuedTokenItem(g, "param_decl", "symbol::", "symbol", ":", true);
  }

  lemma ParamDeclItemsC(g: Grammar)
    requires g.lex == PascalLex
    requires "type_name" in g.rules
    ensures ConvItem(g, "param_decl", Ref("type_name"), true) == Ok(RuleRef("type_name"))
  {
    RuleItem(g, "param_decl", "type_name", true);
  }

  lemma ParamDeclRule(g: Grammar)
    requires g.lex == PascalLex && "param_decl" in g.rules && g.rules["param_decl"] == ParamDeclDef
    requires "name" in g.rules && "type_name" in g.rules
    ensures ConvRule(g, "param_decl") == Ok(ParamDeclNode)
  {
    ParamDeclItemsA(g);
    ParamDeclItemsB(g);
    ParamDeclItemsC(g);
    ListOf3(g, "param_decl", true, Ref("name"), Ref("symbol::"), Ref("type_name"), RuleRef("name"), Lex("symbol", Some(":")), RuleRef("type_name"));
    SequenceTuple(g, "param_decl", Some("param_decl"), [Ref("name"), Ref("symbol::"), Ref("type_name")], [RuleRef("name"), Lex("symbol", Some(":")), RuleRef("type_name")]);
    TupleRule(g, "param_decl");
  }

  lemma StmtListItemsA(g: Grammar)
    requires g.lex == PascalLex
    requires "statement" in g.rules
    ensures ConvItem(g, "stmt_list", Ref("statement"), false) == Ok(RuleRef("statement"))
  {
    RuleItem(g, "stmt_list", "statement", false);
  }

  lemma StmtListItemsB(g: Grammar)
    requires g.lex == PascalLex
    ensures ConvItem(g, "stmt_list", Ref("symbol:;"), false) == Ok(Lex("symbol", Some(";")))
  {
    StmtListItemsBRefs();
    ValuedTokenItem(g, "stmt_list", "symbol:;", "symbol", ";", false);
  }

  /** A delimited repetition whose delimiter is a token. */
  lemma StmtListRule(g: Grammar)
    requires g.lex == PascalLex && "stmt_list" in g.rules && g.rules["stmt_list"] == StmtListDef
    requires "statement" in g.rules
    ensures ConvRule(g, "stmt_list") == Ok(StmtListNode)
  {
    RepeatKindNames();
    StmtListItemsA(g);
    StmtListItemsB(g);
    DelimitedRepeatTuple(g, "stmt_list", Some("stmt_list"), ZeroPlus, Ref("statement"), Ref("symbol:;"), RuleRef("statement"), Lex("symbol", Some(";")));
    TupleRule(g, "stmt_list");
  }

  lemma StatementItemsA(g: Grammar)
    requires g.lex == PascalLex
    requires "assign_stmt" in g.rules
    ensures ConvItem(g, "statement", Ref("assign_stmt"), false) == Ok(RuleRef("assign_stmt"))
  {
    RuleItem(g, "statement", "assign_stmt", false);
  }

  lemma StatementItemsB(g: Grammar)
    requires g.lex == PascalLex
    requires "compound_stmt" in g.rules
    ensures ConvItem(g, "statement", Ref("compound_stmt"), false) == Ok(RuleRef("compound_stmt"))
  {
    RuleItem(g, "statement", "compound_stmt", false);
  }

  lemma StatementItemsC(g: Grammar)
    requires g.lex == PascalLex
    requires "empty_stmt" in g.rules
    ensures ConvItem(g, "statement", Ref("empty_stmt"), false) == Ok(RuleRef("empty_stmt"))
  {
    RuleItem(g, "statement", "empty_stmt", false);
  }

  lemma StatementItemsD(g: Grammar)
    requires g.lex == PascalLex
    requires "if_stmt" in g.rules
    ensures ConvItem(g, "statement", Ref("if_stmt"), false) == Ok(RuleRef("if_stmt"))
  {
    RuleItem(g, "statement", "if_stmt", false);
  }

  lemma StatementItemsE(g: Grammar)
    requires g.lex == PascalLex
    requires "proc_call" in g.rules
    ensures ConvItem(g, "statement", Ref("proc_call"), false) == Ok(RuleRef("proc_call"))
  {
    RuleItem(g, "statement", "proc_call", false);
  }

  lemma StatementItemsF(g: Grammar)
    requires g.lex == PascalLex
    requires "while_stmt" in g.rules
    ensures ConvItem(g, "statement", Ref("while_stmt"), false) == Ok(RuleRef("while_stmt"))
  {
    RuleItem(g, "statement", "while_stmt", false);
  }

  /** A choice of six rule edges, the `if_stmt` one closing a cycle back to
      `statement`. */
  lemma StatementRule(g: Grammar)
    requires g.lex == PascalLex && "statement" in g.rules && g.rules["statement"] == StatementDef
    requires "assign_stmt" in g.rules && "compound_stmt" in g.rules && "empty_stmt" in g.rules
    requires "if_stmt" in g.rules && "proc_call" in g.rules && "while_stmt" in g.rules
    ensures ConvRule(g, "statement") == Ok(StatementNode)
  {
    StatementItemsA(g);
    StatementItemsB(g);
    StatementItemsC(g);
    StatementItemsD(g);
    StatementItemsE(g);
    StatementItemsF(g);
    ListOf6(g, "statement", false, Ref("assign_stmt"), Ref("compound_stmt"), Ref("empty_stmt"), Ref("if_stmt"), Ref("proc_call"), Ref("while_stmt"), RuleRef("assign_stmt"), RuleRef("compound_stmt"), RuleRef("empty_stmt"), RuleRef("if_stmt"), RuleRef("proc_call"), RuleRef("while_stmt"));
    EitherTuple(g, "statement", Some("statement"), [Ref("assign_stmt"), Ref("compound_stmt"), Ref("empty_stmt"), Ref("if_stmt"), Ref("proc_call"), Ref("while_stmt")], [RuleRef("assign_stmt"), RuleRef("compound_stmt"), RuleRef("empty_stmt"), RuleRef("if_stmt"), RuleRef("proc_call"), RuleRef("while_stmt")]);
    TupleRule(g, "statement");
  }

  lemma EmptyStmtItems(g: Grammar)
    requires g.lex == PascalLex
    ensures ConvItem(g, "empty_stmt", Ref("symbol:;"), true) == Ok(Lex("symbol", Some(";")))
  {
    EmptyStmtItemsRefs();
    ValuedTokenItem(g, "empty_stmt", "symbol:;", "symbol", ";", true);
  }

  lemma EmptyStmtRule(g: Grammar)
    requires g.lex == PascalLex && "empty_stmt" in g.rules && g.rules["empty_stmt"] == EmptyStmtDef
    ensures ConvRule(g, "empty_stmt") == Ok(EmptyStmtNode)
  {
    EmptyStmtItems(g);
    ListOf1(g, "empty_stmt", true, Ref("symbol:;"), Lex("symbol", Some(";")));
    SequenceTuple(g, "empty_stmt", Some("empty_stmt"), [Ref("symbol:;")], [Lex("symbol", Some(";"))]);
    TupleRule(g, "empty_stmt");
  }

  lemma AssignStmtItemsA(g: Grammar)
    requires g.lex == PascalLex
    requires "variable" in g.rules
    ensures ConvItem(g, "assign_stmt", Ref("variable"), true) == Ok(RuleRef("variable"))
  {
    RuleItem(g, "assign_stmt", "variable", true);
  }

  lemma AssignStmtItemsB(g: Grammar)
    requires g.lex == PascalLex
    ensures ConvItem(g, "assign_stmt", Ref("symbol::="), true) == Ok(Lex("symbol", Some(":=")))
  {
    AssignStmtItemsBRefs();
    ValuedTokenItem(g, "assign_stmt", "symbol::=", "symbol", ":=", true);
  }

  lemma AssignStmtItemsC(g: Grammar)
    requires g.lex == PascalLex
    requires "expression" in g.rules
    ensures ConvItem(g, "assign_stmt", Ref("expression"), true) == Ok(RuleRef("expression"))
  {
    RuleItem(g, "assign_stmt", "expression", true);
  }

  /** `symbol::=` splits at its first colon: a symbol whose value is `:=`. */
  lemma AssignStmtRule(g: Grammar)
    requires g.lex == PascalLex && "assign_stmt" in g.rules && g.rules["assign_stmt"] == AssignStmtDef
    requires "variable" in g.rules && "expression" in g.rules
    ensures ConvRule(g, "assign_stmt") == Ok(AssignStmtNode)
  {
    AssignStmtItemsA(g);
    AssignStmtItemsB(g);
    AssignStmtItemsC(g);
    ListOf3(g, "assign_stmt", true, Ref("variable"), Ref("symbol::="), Ref("expression"), RuleRef("variable"), Lex("symbol", Some(":=")), RuleRef("expression"));
    SequenceTuple(g, "assign_stmt", Some("assign_stmt"), [Ref("variable"), Ref("symbol::="), Ref("expression")], [RuleRef("variable"), Lex("symbol", Some(":=")), RuleRef("expression")]);
    TupleRule(g, "assign_stmt");
  }

  lemma VariableItemsA(g: Grammar)
    requires g.lex == PascalLex
    requires "name" in g.rules
    ensures ConvItem(g, "variable", Ref("name"), true) == Ok(RuleRef("name"))
  {
    RuleItem(g, "variable", "name", true);
  }

  lemma VariableAt1SubItemsA(g: Grammar)
    requires g.lex == PascalLex
    ensures ConvItem(g, "variable", Ref("symbol:["), true) == Ok(Lex("symbol", Some("[")))
  {
    VariableAt1SubItemsARefs();
    ValuedTokenItem(g, "variable", "symbol:[", "symbol", "[", true);
  }

  lemma VariableAt1SubItemsB(g: Grammar)
    requires g.lex == PascalLex
    requires "expression" in g.rules
    ensures ConvItem(g, "variable", Ref("expression"), true) == Ok(RuleRef("expression"))
  {
    RuleItem(g, "variable", "expression", true);
  }

  lemma VariableAt1SubItemsC(g: Grammar)
    requires g.lex == PascalLex
    ensures ConvItem(g, "variable", Ref("symbol:]"), true) == Ok(Lex("symbol", Some("]")))
  {
    VariableAt1SubItemsCRefs();
    ValuedTokenItem(g, "variable", "symbol:]", "symbol", "]", true);
  }

  lemma VariableAt1Sub(g: Grammar)
    requires g.lex == PascalLex
    requires "expression" in g.rules
    ensures ConvItem(g, "variable", Tuple("sequence", List([Ref("symbol:["), Ref("expression"), Ref("symbol:]")]), None), false) == Ok(Sequence(None, [Lex("symbol", Some("[")), RuleRef("expression"), Lex("symbol", Some("]"))]))
  {
    VariableAt1SubItemsA(g);
    VariableAt1SubItemsB(g);
    VariableAt1SubItemsC(g);
    ListOf3(g, "variable", true, Ref("symbol:["), Ref("expression"), Ref("symbol:]"), Lex("symbol", Some("[")), RuleRef("expression"), Lex("symbol", Some("]")));
    SequenceTuple(g, "variable", None, [Ref("symbol:["), Ref("expression"), Ref("symbol:]")], [Lex("symbol", Some("[")), RuleRef("expression"), Lex("symbol", Some("]"))]);
    TupleItem(g, "variable", Tuple("sequence", List([Ref("symbol:["), Ref("expression"), Ref("symbol:]")]), None), false);
  }

  lemma VariableAt1Items(g: Grammar)
    requires g.lex == PascalLex
    requires "expression" in g.rules
    ensures ConvItem(g, "variable", Tuple("sequence", List([Ref("symbol:["), Ref("expression"), Ref("symbol:]")]), None), false) == Ok(Sequence(None, [Lex("symbol", Some("[")), RuleRef("expression"), Lex("symbol", Some("]"))]))
  {
    VariableAt1Sub(g);
  }

  lemma VariableAt1(g: Grammar)
    requires g.lex == PascalLex
    requires "expression" in g.rules
    ensures ConvItem(g, "variable", Tuple("optional", Tuple("sequence", List([Ref("symbol:["), Ref("expression"), Ref("symbol:]")]), None), None), true) == Ok(Optional(None, Sequence(None, [Lex("symbol", Some("[")), RuleRef("expression"), Lex("symbol", Some("]"))])))
  {
    VariableAt1Items(g);
    OptionalTuple(g, "variable", None, Tuple("sequence", List([Ref("symbol:["), Ref("expression"), Ref("symbol:]")]), None), Sequence(None, [Lex("symbol", Some("[")), RuleRef("expression"), Lex("symbol", Some("]"))]));
    TupleItem(g, "variable", Tuple("optional", Tuple("sequence", List([Ref("symbol:["), Ref("expression"), Ref("symbol:]")]), None), None), true);
  }

  lemma VariableItemsB(g: Grammar)
    requires g.lex == PascalLex
    requires "expression" in g.rules
    ensures ConvItem(g, "variable", Tuple("optional", Tuple("sequence", List([Ref("symbol:["), Ref("expression"), Ref("symbol:]")]), None), None), true) == Ok(Optional(None, Sequence(None, [Lex("symbol", Some("[")), RuleRef("expression"), Lex("symbol", Some("]"))])))
  {
    VariableAt1(g);
  }

  lemma VariableRule(g: Grammar)
    requires g.lex == PascalLex && "variable" in g.rules && g.rules["variable"] == VariableDef
    requires "name" in g.rules && "expression" in g.rules
    ensures ConvRule(g, "variable") == Ok(VariableNode)
  {
    VariableItemsA(g);
    VariableItemsB(g);
    ListOf2(g, "variable", true, Ref("name"), Tuple("optional", Tuple("sequence", List([Ref("symbol:["), Ref("expression"), Ref("symbol:]")]), None), None), RuleRef("name"), Optional(None, Sequence(None, [Lex("symbol", Some("[")), RuleRef("expression"), Lex("symbol", Some("]"))])));
    SequenceTuple(g, "variable", Some("variable"), [Ref("name"), Tuple("optional", Tuple("sequence", List([Ref("symbol:["), Ref("expression"), Ref("symbol:]")]), None), None)], [RuleRef("name"), Optional(None, Sequence(None, [Lex("symbol", Some("[")), RuleRef("expression"), Lex("symbol", Some("]"))]))]);
    TupleRule(g, "variable");
  }

  lemma ProcCallItemsA(g: Grammar)
    requires g.lex == PascalLex
    requires "name" in g.rules
    ensures ConvItem(g, "proc_call", Ref("name"), true) == Ok(RuleRef("name"))
  {
    RuleItem(g, "proc_call", "name", true);
  }

  lemma ProcCallAt1SubItemsA(g: Grammar)
    requires g.lex == PascalLex
    ensures ConvItem(g, "proc_call", Ref("symbol:("), true) == Ok(Lex("symbol", Some("(")))
  {
    ProcCallAt1SubItemsARefs();
    ValuedTokenItem(g, "proc_call", "symbol:(", "symbol", "(", true);
  }

  lemma ProcCallAt1SubAt1ItemsA(g: Grammar)
    requires g.lex == PascalLex
    requires "expression" in g.rules
    ensures ConvItem(g, "proc_call", Ref("expression"), false) == Ok(RuleRef("expression"))
  {
    RuleItem(g, "proc_call", "expression", false);
  }

  lemma ProcCallAt1SubAt1ItemsB(g: Grammar)
    requires g.lex == PascalLex
    ensures ConvItem(g, "proc_call", Ref("symbol:,"), false) == Ok(Lex("symbol", Some(",")))
  {
    ProcCallAt1SubAt1ItemsBRefs();
    ValuedTokenItem(g, "proc_call", "symbol:,", "symbol", ",", false);
  }

  lemma ProcCallAt1SubAt1(g: Grammar)
    requires g.lex == PascalLex
    requires "expression" in g.rules
    ensures ConvItem(g, "proc_call", Tuple("one_plus", Ref("expression"), Some(Ref("symbol:,"))), true) == Ok(Repeat(None, OnePlus, RuleRef("expression"), Some(Lex("symbol", Some(",")))))
  {
    RepeatKindNames();
    ProcCallAt1SubAt1ItemsA(g);
    ProcCallAt1SubAt1ItemsB(g);
    DelimitedRepeatTuple(g, "proc_call", None, OnePlus, Ref("expression"), Ref("symbol:,"), RuleRef("expression"), Lex("symbol", Some(",")));
    TupleItem(g, "proc_call", Tuple("one_plus", Ref("expression"), Some(Ref("symbol:,"))), true);
  }

  lemma ProcCallAt1SubItemsB(g: Grammar)
    requires g.lex == PascalLex
    requires "expression" in g.rules
    ensures ConvItem(g, "proc_call", Tuple("one_plus", Ref("expression"), Some(Ref("symbol:,"))), true) == Ok(Repeat(None, OnePlus, RuleRef("expression"), Some(Lex("symbol", Some(",")))))
  {
    ProcCallAt1SubAt1(g);
  }

  lemma ProcCallAt1SubItemsC(g: Grammar)
    requires g.lex == PascalLex
    ensures ConvItem(g, "proc_call", Ref("symbol:)"), true) == Ok(Lex("symbol", Some(")")))
  {
    ProcCallAt1SubItemsCRefs();
    ValuedTokenItem(g, "proc_call", "symbol:)", "symbol", ")", true);
  }

  lemma ProcCallAt1Sub(g: Grammar)
    requires g.lex == PascalLex
    requires "expression" in g.rules
    ensures ConvItem(g, "proc_call", Tuple("sequence", List([Ref("symbol:("), Tuple("one_plus", Ref("expression"), Some(Ref("symbol:,"))), Ref("symbol:)")]), None), false) == Ok(Sequence(None, [Lex("symbol", Some("(")), Repeat(None, OnePlus, RuleRef("expression"), Some(Lex("symbol", Some(",")))), Lex("symbol", Some(")"))]))
  {
    ProcCallAt1SubItemsA(g);
    ProcCallAt1SubItemsB(g);
    ProcCallAt1SubItemsC(g);
    ListOf3(g, "proc_call", true, Ref("symbol:("), Tuple("one_plus", Ref("expression"), Some(Ref("symbol:,"))), Ref("symbol:)"), Lex("symbol", Some("(")), Repeat(None, OnePlus, RuleRef("expression"), Some(Lex("symbol", Some(",")))), Lex("symbol", Some(")")));
    SequenceTuple(g, "proc_call", None, [Ref("symbol:("), Tuple("one_plus", Ref("expression"), Some(Ref("symbol:,"))), Ref("symbol:)")], [Lex("symbol", Some("(")), Repeat(None, OnePlus, RuleRef("expression"), Some(Lex("symbol", Some(",")))), Lex("symbol", Some(")"))]);
    TupleItem(g, "proc_call", Tuple("sequence", List([Ref("symbol:("), Tuple("one_plus", Ref("expression"), Some(Ref("symbol:,"))), Ref("symbol:)")]), None), false);
  }

  lemma ProcCallAt1Items(g: Grammar)
    requires g.lex == PascalLex
    requires "expression" in g.rules
    ensures ConvItem(g, "proc_call", Tuple("sequence", List([Ref("symbol:("), Tuple("one_plus", Ref("expression"), Some(Ref("symbol:,"))), Ref("symbol:)")]), None), false) == Ok(Sequence(None, [Lex("symbol", Some("(")), Repeat(None, OnePlus, RuleRef("expression"), Some(Lex("symbol", Some(",")))), Lex("symbol", Some(")"))]))
  {
    ProcCallAt1Sub(g);
  }

  lemma ProcCallAt1(g: Grammar)
    requires g.lex == PascalLex
    requires "expression" in g.rules
    ensures ConvItem(g, "proc_call", Tuple("optional", Tuple("sequence", List([Ref("symbol:("), Tuple("one_plus", Ref("expression"), Some(Ref("symbol:,"))), Ref("symbol:)")]), None), None), true) == Ok(Optional(None, Sequence(None, [Lex("symbol", Some("(")), Repeat(None, OnePlus, RuleRef("expression"), Some(Lex("symbol", Some(",")))), Lex("symbol", Some(")"))])))
  {
    ProcCallAt1Items(g);
    OptionalTuple(g, "proc_call", None, Tuple("sequence", List([Ref("symbol:("), Tuple("one_plus", Ref("expression"), Some(Ref("symbol:,"))), Ref("symbol:)")]), None), Sequence(None, [Lex("symbol", Some("(")), Repeat(None, OnePlus, RuleRef("expression"), Some(Lex("symbol", Some(",")))), Lex("symbol", Some(")"))]));
    TupleItem(g, "proc_call", Tuple("optional", Tuple("sequence", List([Ref("symbol:("), Tuple("one_plus", Ref("expression"), Some(Ref("symbol:,"))), Ref("symbol:)")]), None), None), true);
  }

  lemma ProcCallItemsB(g: Grammar)
    requires g.lex == PascalLex
    requires "expression" in g.rules
    ensures ConvItem(g, "proc_call", Tuple("optional", Tuple("sequence", List([Ref("symbol:("), Tuple("one_plus", Ref("expression"), Some(Ref("symbol:,"))), Ref("symbol:)")]), None), None), true) == Ok(Optional(None, Sequence(None, [Lex("symbol", Some("(")), Repeat(None, OnePlus, RuleRef("expression"), Some(Lex("symbol", Some(",")))), Lex("symbol", Some(")"))])))
  {
    ProcCallAt1(g);
  }

  lemma ProcCallRule(g: Grammar)
    requires g.lex == PascalLex && "proc_call" in g.rules && g.rules["proc_call"] == ProcCallDef
    requires "name" in g.rules && "expression" in g.rules
    ensures ConvRule(g, "proc_call") == Ok(ProcCallNode)
  {
    ProcCallItemsA(g);
    ProcCallItemsB(g);
    ListOf2(g, "proc_call", true, Ref("name"), Tuple("optional", Tuple("sequence", List([Ref("symbol:("), Tuple("one_plus", Ref("expression"), Some(Ref("symbol:,"))), Ref("symbol:)")]), None), None), RuleRef("name"), Optional(None, Sequence(None, [Lex("symbol", Some("(")), Repeat(None, OnePlus, RuleRef("expression"), Some(Lex("symbol", Some(",")))), Lex("symbol", Some(")"))])));
    SequenceTuple(g, "proc_call", Some("proc_call"), [Ref("name"), Tuple("optional", Tuple("sequence", List([Ref("symbol:("), Tuple("one_plus", Ref("expression"), Some(Ref("symbol:,"))), Ref("symbol:)")]), None), None)], [RuleRef("name"), Optional(None, Sequence(None, [Lex("symbol", Some("(")), Repeat(None, OnePlus, RuleRef("expression"), Some(Lex("symbol", Some(",")))), Lex("symbol", Some(")"))]))]);
    TupleRule(g, "proc_call");
  }

  lemma IfStmtItemsA(g: Grammar)
    requires g.lex == PascalLex
    ensures ConvItem(g, "if_stmt", Ref("word:if"), true) == Ok(Lex("word", Some("if")))
  {
    IfStmtItemsARefs();
    ValuedTokenItem(g, "if_stmt", "word:if", "word", "if", true);
  }

  lemma IfStmtItemsB(g: Grammar)
    requires g.lex == PascalLex
    requires "expression" in g.rules
    ensures ConvItem(g, "if_stmt", Ref("expression"), true) == Ok(RuleRef("expression"))
  {
    RuleItem(g, "if_stmt", "expression", true);
  }

  lemma IfStmtItemsC(g: Grammar)
    requires g.lex == PascalLex
    ensures ConvItem(g, "if_stmt", Ref("word:then"), true) == Ok(Lex("word", Some("then")))
  {
    IfStmtItemsCRefs();
    ValuedTokenItem(g, "if_stmt", "word:then", "word", "then", true);
  }

  lemma IfStmtItemsD(g: Grammar)
    requires g.lex == PascalLex
    requires "statement" in g.rules
    ensures ConvItem(g, "if_stmt", Ref("statement"), true) == Ok(RuleRef("statement"))
  {
    RuleItem(g, "if_stmt", "statement", true);
  }

  lemma IfStmtAt4SubItemsA(g: Grammar)
    requires g.lex == PascalLex
    ensures ConvItem(g, "if_stmt", Ref("word:else"), true) == Ok(Lex("word", Some("else")))
  {
    IfStmtAt4SubItemsARefs();
    ValuedTokenItem(g, "if_stmt", "word:else", "word", "else", true);
  }

  lemma IfStmtAt4SubItemsB(g: Grammar)
    requires g.lex == PascalLex
    requires "statement" in g.rules
    ensures ConvItem(g, "if_stmt", Ref("statement"), true) == Ok(RuleRef("statement"))
  {
    RuleItem(g, "if_stmt", "statement", true);
  }

  lemma IfStmtAt4Sub(g: Grammar)
    requires g.lex == PascalLex
    requires "statement" in g.rules
    ensures ConvItem(g, "if_stmt", Tuple("sequence", List([Ref("word:else"), Ref("statement")]), None), false) == Ok(Sequence(None, [Lex("word", Some("else")), RuleRef("statement")]))
  {
    IfStmtAt4SubItemsA(g);
    IfStmtAt4SubItemsB(g);
    ListOf2(g, "if_stmt", true, Ref("word:else"), Ref("statement"), Lex("word", Some("else")), RuleRef("statement"));
    SequenceTuple(g, "if_stmt", None, [Ref("word:else"), Ref("statement")], [Lex("word", Some("else")), RuleRef("statement")]);
    TupleItem(g, "if_stmt", Tuple("sequence", List([Ref("word:else"), Ref("statement")]), None), false);
  }

  lemma IfStmtAt4Items(g: Grammar)
    requires g.lex == PascalLex
    requires "statement" in g.rules
    ensures ConvItem(g, "if_stmt", Tuple("sequence", List([Ref("word:else"), Ref("statement")]), None), false) == Ok(Sequence(None, [Lex("word", Some("else")), RuleRef("statement")]))
  {
    IfStmtAt4Sub(g);
  }

  lemma IfStmtAt4(g: Grammar)
    requires g.lex == PascalLex
    requires "statement" in g.rules
    ensures ConvItem(g, "if_stmt", Tuple("optional", Tuple("sequence", List([Ref("word:else"), Ref("statement")]), None), None), true) == Ok(Optional(None, Sequence(None, [Lex("word", Some("else")), RuleRef("statement")])))
  {
    IfStmtAt4Items(g);
    OptionalTuple(g, "if_stmt", None, Tuple("sequence", List([Ref("word:else"), Ref("statement")]), None), Sequence(None, [Lex("word", Some("else")), RuleRef("statement")]));
    TupleItem(g, "if_stmt", Tuple("optional", Tuple("sequence", List([Ref("word:else"), Ref("statement")]), None), None), true);
  }

  lemma IfStmtItemsE(g: Grammar)
    requires g.lex == PascalLex
    requires "statement" in g.rules
    ensures ConvItem(g, "if_stmt", Tuple("optional", Tuple("sequence", List([Ref("word:else"), Ref("statement")]), None), None), true) == Ok(Optional(None, Sequence(None, [Lex("word", Some("else")), RuleRef("statement")])))
  {
    IfStmtAt4(g);
  }

  lemma IfStmtRule(g: Grammar)
    requires g.lex == PascalLex && "if_stmt" in g.rules && g.rules["if_stmt"] == IfStmtDef
    requires "expression" in g.rules && "statement" in g.rules
    ensures ConvRule(g, "if_stmt") == Ok(IfStmtNode)
  {
    IfStmtItemsA(g);
    IfStmtItemsB(g);
    IfStmtItemsC(g);
    IfStmtItemsD(g);
    IfStmtItemsE(g);
    ListOf5(g, "if_stmt", true, Ref("word:if"), Ref("expression"), Ref("word:then"), Ref("statement"), Tuple("optional", Tuple("sequence", List([Ref("word:else"), Ref("statement")]), None), None), Lex("word", Some("if")), RuleRef("expression"), Lex("word", Some("then")), RuleRef("statement"), Optional(None, Sequence(None, [Lex("word", Some("else")), RuleRef("statement")])));
    SequenceTuple(g, "if_stmt", Some("if_stmt"), [Ref("word:if"), Ref("expression"), Ref("word:then"), Ref("statement"), Tuple("optional", Tuple("sequence", List([Ref("word:else"), Ref("statement")]), None), None)], [Lex("word", Some("if")), RuleRef("expression"), Lex("word", Some("then")), RuleRef("statement"), Optional(None, Sequence(None, [Lex("word", Some("else")), RuleRef("statement")]))]);
    TupleRule(g, "if_stmt");
  }

  lemma WhileStmtItemsA(g: Grammar)
    requires g.lex == PascalLex
    ensures ConvItem(g, "while_stmt", Ref("word:while"), true) == Ok(Lex("word", Some("while")))
  {
    WhileStmtItemsARefs();
    ValuedTokenItem(g, "while_stmt", "word:while", "word", "while", true);
  }

  lemma WhileStmtItemsB(g: Grammar)
    requires g.lex == PascalLex
    requires "expression" in g.rules
    ensures ConvItem(g, "while_stmt", Ref("expression"), true) == Ok(RuleRef("expression"))
  {
    RuleItem(g, "while_stmt", "expression", true);
  }

  lemma WhileStmtItemsC(g: Grammar)
    requires g.lex == PascalLex
    ensures ConvItem(g, "while_stmt", Ref("word:do"), true) == Ok(Lex("word", Some("do")))
  {
    WhileStmtItemsCRefs();
    ValuedTokenItem(g, "while_stmt", "word:do", "word", "do", true);
  }

  lemma WhileStmtItemsD(g: Grammar)
    requires g.lex == PascalLex
    requires "statement" in g.rules
    ensures ConvItem(g, "while_stmt", Ref("statement"), true) == Ok(RuleRef("statement"))
  {
    RuleItem(g, "while_stmt", "statement", true);
  }

  lemma WhileStmtRule(g: Grammar)
    requires g.lex == PascalLex && "while_stmt" in g.rules && g.rules["while_stmt"] == WhileStmtDef
    requires "expression" in g.rules && "statement" in g.rules
    ensures ConvRule(g, "while_stmt") == Ok(WhileStmtNode)
  {
    WhileStmtItemsA(g);
    WhileStmtItemsB(g);
    WhileStmtItemsC(g);
    WhileStmtItemsD(g);
    ListOf4(g, "while_stmt", true, Ref("word:while"), Ref("expression"), Ref("word:do"), Ref("statement"), Lex("word", Some("while")), RuleRef("expression"), Lex("word", Some("do")), RuleRef("statement"));
    SequenceTuple(g, "while_stmt", Some("while_stmt"), [Ref("word:while"), Ref("expression"), Ref("word:do"), Ref("statement")], [Lex("word", Some("while")), RuleRef("expression"), Lex("word", Some("do")), RuleRef("statement")]);
    TupleRule(g, "while_stmt");
  }

  lemma CompoundStmtItemsA(g: Grammar)
    requires g.lex == PascalLex
    ensures ConvItem(g, "compound_stmt", Ref("word:begin"), true) == Ok(Lex("word", Some("begin")))
  {
    CompoundStmtItemsARefs();
    ValuedTokenItem(g, "compound_stmt", "word:begin", "word", "begin", true);
  }

  lemma CompoundStmtItemsB(g: Grammar)
    requires g.lex == PascalLex
    requires "stmt_list" in g.rules
    ensures ConvItem(g, "compound_stmt", Ref("stmt_list"), true) == Ok(RuleRef("stmt_list"))
  {
    RuleItem(g, "compound_stmt", "stmt_list", true);
  }

  lemma CompoundStmtItemsC(g: Grammar)
    requires g.lex == PascalLex
    ensures ConvItem(g, "compound_stmt", Ref("word:end"), true) == Ok(Lex("word", Some("end")))
  {
    CompoundStmtItemsCRefs();
    ValuedTokenItem(g, "compound_stmt", "word:end", "word", "end", true);
  }

  lemma CompoundStmtRule(g: Grammar)
    requires g.lex == PascalLex && "compound_stmt" in g.rules && g.rules["compound_stmt"] == CompoundStmtDef
    requires "stmt_list" in g.rules
    ensures ConvRule(g, "compound_stmt") == Ok(CompoundStmtNode)
  {
    CompoundStmtItemsA(g);
    CompoundStmtItemsB(g);
    CompoundStmtItemsC(g);
    ListOf3(g, "compound_stmt", true, Ref("word:begin"), Ref("stmt_list"), Ref("word:end"), Lex("word", Some("begin")), RuleRef("stmt_list"), Lex("word", Some("end")));
    SequenceTuple(g, "compound_stmt", Some("compound_stmt"), [Ref("word:begin"), Ref("stmt_list"), Ref("word:end")], [Lex("word", Some("begin")), RuleRef("stmt_list"), Lex("word", Some("end"))]);
    TupleRule(g, "compound_stmt");
  }

  lemma ExpressionItemsA(g: Grammar)
    requires g.lex == PascalLex
    requires "simple_expr" in g.rules
    ensures ConvItem(g, "expression", Ref("simple_expr"), true) == Ok(RuleRef("simple_expr"))
  {
    RuleItem(g, "expression", "simple_expr", true);
  }

  lemma ExpressionItemsB(g: Grammar)
    requires g.lex == PascalLex
    requires "rel_opr" in g.rules
    ensures ConvItem(g, "expression", Ref("rel_opr"), true) == Ok(RuleRef("rel_opr"))
  {
    RuleItem(g, "expression", "rel_opr", true);
  }

  lemma ExpressionItemsC(g: Grammar)
    requires g.lex == PascalLex
    requires "simple_expr" in g.rules
    ensures ConvItem(g, "expression", Ref("simple_expr"), true) == Ok(RuleRef("simple_expr"))
  {
    RuleItem(g, "expression", "simple_expr", true);
  }

  lemma ExpressionRule(g: Grammar)
    requires g.lex == PascalLex && "expression" in g.rules && g.rules["expression"] == ExpressionDef
    requires "simple_expr" in g.rules && "rel_opr" in g.rules
    ensures ConvRule(g, "expression") == Ok(ExpressionNode)
  {
    ExpressionItemsA(g);
    ExpressionItemsB(g);
    ExpressionItemsC(g);
    ListOf3(g, "expression", true, Ref("simple_expr"), Ref("rel_opr"), Ref("simple_expr"), RuleRef("simple_expr"), RuleRef("rel_opr"), RuleRef("simple_expr"));
    SequenceTuple(g, "expression", Some("expression"), [Ref("simple_expr"), Ref("rel_opr"), Ref("simple_expr")], [RuleRef("simple_expr"), RuleRef("rel_opr"), RuleRef("simple_expr")]);
    TupleRule(g, "expression");
  }

  lemma RelOprItemsA(g: Grammar)
    requires g.lex == PascalLex
    ensures ConvItem(g, "rel_opr", Ref("symbol:="), false) == Ok(Lex("symbol", Some("=")))
  {
    RelOprItemsARefs();
    ValuedTokenItem(g, "rel_opr", "symbol:=", "symbol", "=", false);
  }

  lemma RelOprItemsB(g: Grammar)
    requires g.lex == PascalLex
    ensures ConvItem(g, "rel_opr", Ref("symbol:<>"), false) == Ok(Lex("symbol", Some("<>")))
  {
    RelOprItemsBRefs();
    ValuedTokenItem(g, "rel_opr", "symbol:<>", "symbol", "<>", false);
  }

  lemma RelOprItemsC(g: Grammar)
    requires g.lex == PascalLex
    ensures ConvItem(g, "rel_opr", Ref("symbol:<"), false) == Ok(Lex("symbol", Some("<")))
  {
    RelOprItemsCRefs();
    ValuedTokenItem(g, "rel_opr", "symbol:<", "symbol", "<", false);
  }

  lemma RelOprItemsD(g: Grammar)
    requires g.lex == PascalLex
    ensures ConvItem(g, "rel_opr", Ref("symbol:<="), false) == Ok(Lex("symbol", Some("<=")))
  {
    RelOprItemsDRefs();
    ValuedTokenItem(g, "rel_opr", "symbol:<=", "symbol", "<=", false);
  }

  lemma RelOprItemsE(g: Grammar)
    requires g.lex == PascalLex
    ensures ConvItem(g, "rel_opr", Ref("symbol:>"), false) == Ok(Lex("symbol", Some(">")))
  {
    RelOprItemsERefs();
    ValuedTokenItem(g, "rel_opr", "symbol:>", "symbol", ">", false);
  }

  lemma RelOprItemsF(g: Grammar)
    requires g.lex == PascalLex
    ensures ConvItem(g, "rel_opr", Ref("symbol:>="), false) == Ok(Lex("symbol", Some(">=")))
  {
    RelOprItemsFRefs();
    ValuedTokenItem(g, "rel_opr", "symbol:>=", "symbol", ">=", false);
  }

  lemma RelOprRule(g: Grammar)
    requires g.lex == PascalLex && "rel_opr" in g.rules && g.rules["rel_opr"] == RelOprDef
    ensures ConvRule(g, "rel_opr") == Ok(RelOprNode)
  {
    RelOprItemsA(g);
    RelOprItemsB(g);
    RelOprItemsC(g);
    RelOprItemsD(g);
    RelOprItemsE(g);
    RelOprItemsF(g);
    ListOf6(g, "rel_opr", false, Ref("symbol:="), Ref("symbol:<>"), Ref("symbol:<"), Ref("symbol:<="), Ref("symbol:>"), Ref("symbol:>="), Lex("symbol", Some("=")), Lex("symbol", Some("<>")), Lex("symbol", Some("<")), Lex("symbol", Some("<=")), Lex("symbol", Some(">")), Lex("symbol", Some(">=")));
    EitherTuple(g, "rel_opr", Some("rel_opr"), [Ref("symbol:="), Ref("symbol:<>"), Ref("symbol:<"), Ref("symbol:<="), Ref("symbol:>"), Ref("symbol:>=")], [Lex("symbol", Some("=")), Lex("symbol", Some("<>")), Lex("symbol", Some("<")), Lex("symbol", Some("<=")), Lex("symbol", Some(">")), Lex("symbol", Some(">="))]);
    TupleRule(g, "rel_opr");
  }

  lemma SimpleExprAt0(g: Grammar)
    requires g.lex == PascalLex
    requires "prefix_opr" in g.rules
    ensures ConvItem(g, "simple_expr", Tuple("optional", Ref("prefix_opr"), None), true) == Ok(Optional(None, RuleRef("prefix_opr")))
  {
    RuleItem(g, "simple_expr", "prefix_opr", false);
    OptionalTuple(g, "simple_expr", None, Ref("prefix_opr"), RuleRef("prefix_opr"));
    TupleItem(g, "simple_expr", Tuple("optional", Ref("prefix_opr"), None), true);
  }

  lemma SimpleExprItemsA(g: Grammar)
    requires g.lex == PascalLex
    requires "prefix_opr" in g.rules
    ensures ConvItem(g, "simple_expr", Tuple("optional", Ref("prefix_opr"), None), true) == Ok(Optional(None, RuleRef("prefix_opr")))
  {
    SimpleExprAt0(g);
  }

  lemma SimpleExprAt1ItemsA(g: Grammar)
    requires g.lex == PascalLex
    requires "term_opr" in g.rules
    ensures ConvItem(g, "simple_expr", Ref("term_opr"), false) == Ok(RuleRef("term_opr"))
  {
    RuleItem(g, "simple_expr", "term_opr", false);
  }

  lemma SimpleExprAt1ItemsB(g: Grammar)
    requires g.lex == PascalLex
    requires "term" in g.rules
    ensures ConvItem(g, "simple_expr", Ref("term"), false) == Ok(RuleRef("term"))
  {
    RuleItem(g, "simple_expr", "term", false);
  }

  lemma SimpleExprAt1(g: Grammar)
    requires g.lex == PascalLex
    requires "term_opr" in g.rules && "term" in g.rules
    ensures ConvItem(g, "simple_expr", Tuple("one_plus", Ref("term_opr"), Some(Ref("term"))), true) == Ok(Repeat(None, OnePlus, RuleRef("term_opr"), Some(RuleRef("term"))))
  {
    RepeatKindNames();
    SimpleExprAt1ItemsA(g);
    SimpleExprAt1ItemsB(g);
    DelimitedRepeatTuple(g, "simple_expr", None, OnePlus, Ref("term_opr"), Ref("term"), RuleRef("term_opr"), RuleRef("term"));
    TupleItem(g, "simple_expr", Tuple("one_plus", Ref("term_opr"), Some(Ref("term"))), true);
  }

  lemma SimpleExprItemsB(g: Grammar)
    requires g.lex == PascalLex
    requires "term_opr" in g.rules && "term" in g.rules
    ensures ConvItem(g, "simple_expr", Tuple("one_plus", Ref("term_opr"), Some(Ref("term"))), true) == Ok(Repeat(None, OnePlus, RuleRef("term_opr"), Some(RuleRef("term"))))
  {
    SimpleExprAt1(g);
  }

  /** A delimited repetition whose delimiter is itself a rule edge. */
  lemma SimpleExprRule(g: Grammar)
    requires g.lex == PascalLex && "simple_expr" in g.rules && g.rules["simple_expr"] == SimpleExprDef
    requires "prefix_opr" in g.rules && "term_opr" in g.rules && "term" in g.rules
    ensures ConvRule(g, "simple_expr") == Ok(SimpleExprNode)
  {
    SimpleExprItemsA(g);
    SimpleExprItemsB(g);
    ListOf2(g, "simple_expr", true, Tuple("optional", Ref("prefix_opr"), None), Tuple("one_plus", Ref("term_opr"), Some(Ref("term"))), Optional(None, RuleRef("prefix_opr")), Repeat(None, OnePlus, RuleRef("term_opr"), Some(RuleRef("term"))));
    SequenceTuple(g, "simple_expr", Some("simple_expr"), [Tuple("optional", Ref("prefix_opr"), None), Tuple("one_plus", Ref("term_opr"), Some(Ref("term")))], [Optional(None, RuleRef("prefix_opr")), Repeat(None, OnePlus, RuleRef("term_opr"), Some(RuleRef("term")))]);
    TupleRule(g, "simple_expr");
  }

  lemma TermOprItemsA(g: Grammar)
    requires g.lex == PascalLex
    ensures ConvItem(g, "term_opr", Ref("symbol:+"), false) == Ok(Lex("symbol", Some("+")))
  {
    TermOprItemsARefs();
    ValuedTokenItem(g, "term_opr", "symbol:+", "symbol", "+", false);
  }

  lemma TermOprItemsB(g: Grammar)
    requires g.lex == PascalLex
    ensures ConvItem(g, "term_opr", Ref("symbol:-"), false) == Ok(Lex("symbol", Some("-")))
  {
    TermOprItemsBRefs();
    ValuedTokenItem(g, "term_opr", "symbol:-", "symbol", "-", false);
  }

  lemma TermOprItemsC(g: Grammar)
    requires g.lex == PascalLex
    ensures ConvItem(g, "term_opr", Ref("word:or"), false) == Ok(Lex("word", Some("or")))
  {
    TermOprItemsCRefs();
    ValuedTokenItem(g, "term_opr", "word:or", "word", "or", false);
  }

  lemma TermOprRule(g: Grammar)
    requires g.lex == PascalLex && "term_opr" in g.rules && g.rules["term_opr"] == TermOprDef
    ensures ConvRule(g, "term_opr") == Ok(TermOprNode)
  {
    TermOprItemsA(g);
    TermOprItemsB(g);
    TermOprItemsC(g);
    ListOf3(g, "term_opr", false, Ref("symbol:+"), Ref("symbol:-"), Ref("word:or"), Lex("symbol", Some("+")), Lex("symbol", Some("-")), Lex("word", Some("or")));
    EitherTuple(g, "term_opr", Some("term_opr"), [Ref("symbol:+"), Ref("symbol:-"), Ref("word:or")], [Lex("symbol", Some("+")), Lex("symbol", Some("-")), Lex("word", Some("or"))]);
    TupleRule(g, "term_opr");
  }

  lemma TermItemsA(g: Grammar)
    requires g.lex == PascalLex
    requires "factor" in g.rules
    ensures ConvItem(g, "term", Ref("factor"), false) == Ok(RuleRef("factor"))
  {
    RuleItem(g, "term", "factor", false);
  }

  lemma TermItemsB(g: Grammar)
    requires g.lex == PascalLex
    requires "factor_opr" in g.rules
    ensures ConvItem(g, "term", Ref("factor_opr"), false) == Ok(RuleRef("factor_opr"))
  {
    RuleItem(g, "term", "factor_opr", false);
  }

  /** A delimited repetition whose delimiter is itself a rule edge. */
  lemma TermRule(g: Grammar)
    requires g.lex == PascalLex && "term" in g.rules && g.rules["term"] == TermDef
    requires "factor" in g.rules && "factor_opr" in g.rules
    ensures ConvRule(g, "term") == Ok(TermNode)
  {
    RepeatKindNames();
    TermItemsA(g);
    TermItemsB(g);
    DelimitedRepeatTuple(g, "term", Some("term"), OnePlus, Ref("factor"), Ref("factor_opr"), RuleRef("factor"), RuleRef("factor_opr"));
    TupleRule(g, "term");
  }

  lemma FactorOprItemsA(g: Grammar)
    requires g.lex == PascalLex
    ensures ConvItem(g, "factor_opr", Ref("symbol:*"), false) == Ok(Lex("symbol", Some("*")))
  {
    FactorOprItemsARefs();
    ValuedTokenItem(g, "factor_opr", "symbol:*", "symbol", "*", false);
  }

  lemma FactorOprItemsB(g: Grammar)
    requires g.lex == PascalLex
    ensures ConvItem(g, "factor_opr", Ref("word:div"), false) == Ok(Lex("word", Some("div")))
  {
    FactorOprItemsBRefs();
    ValuedTokenItem(g, "factor_opr", "word:div", "word", "div", false);
  }

  lemma FactorOprItemsC(g: Grammar)
    requires g.lex == PascalLex
    ensures ConvItem(g, "factor_opr", Ref("word:mod"), false) == Ok(Lex("word", Some("mod")))
  {
    FactorOprItemsCRefs();
    ValuedTokenItem(g, "factor_opr", "word:mod", "word", "mod", false);
  }

  lemma FactorOprItemsD(g: Grammar)
    requires g.lex == PascalLex
    ensures ConvItem(g, "factor_opr", Ref("word:and"), false) == Ok(Lex("word", Some("and")))
  {
    FactorOprItemsDRefs();
    ValuedTokenItem(g, "factor_opr", "word:and", "word", "and", false);
  }

  lemma FactorOprRule(g: Grammar)
    requires g.lex == PascalLex && "factor_opr" in g.rules && g.rules["factor_opr"] == FactorOprDef
    ensures ConvRule(g, "factor_opr") == Ok(FactorOprNode)
  {
    FactorOprItemsA(g);
    FactorOprItemsB(g);
    FactorOprItemsC(g);
    FactorOprItemsD(g);
    ListOf4(g, "factor_opr", false, Ref("symbol:*"), Ref("word:div"), Ref("word:mod"), Ref("word:and"), Lex("symbol", Some("*")), Lex("word", Some("div")), Lex("word", Some("mod")), Lex("word", Some("and")));
    EitherTuple(g, "factor_opr", Some("factor_opr"), [Ref("symbol:*"), Ref("word:div"), Ref("word:mod"), Ref("word:and")], [Lex("symbol", Some("*")), Lex("word", Some("div")), Lex("word", Some("mod")), Lex("word", Some("and"))]);
    TupleRule(g, "factor_opr");
  }

  lemma FactorItemsA(g: Grammar)
    requires g.lex == PascalLex
    requires "unsigned_constant" in g.rules
    ensures ConvItem(g, "factor", Ref("unsigned_constant"), false) == Ok(RuleRef("unsigned_constant"))
  {
    RuleItem(g, "factor", "unsigned_constant", false);
  }

  lemma FactorItemsB(g: Grammar)
    requires g.lex == PascalLex
    requires "variable" in g.rules
    ensures ConvItem(g, "factor", Ref("variable"), false) == Ok(RuleRef("variable"))
  {
    RuleItem(g, "factor", "variable", false);
  }

  lemma FactorItemsC(g: Grammar)
    requires g.lex == PascalLex
    requires "func_call" in g.rules
    ensures ConvItem(g, "factor", Ref("func_call"), false) == Ok(RuleRef("func_call"))
  {
    RuleItem(g, "factor", "func_call", false);
  }

  lemma FactorItemsD(g: Grammar)
    requires g.lex == PascalLex
    requires "inner_expr" in g.rules
    ensures ConvItem(g, "factor", Ref("inner_expr"), false) == Ok(RuleRef("inner_expr"))
  {
    RuleItem(g, "factor", "inner_expr", false);
  }

  lemma FactorItemsE(g: Grammar)
    requires g.lex == PascalLex
    requires "negation" in g.rules
    ensures ConvItem(g, "factor", Ref("negation"), false) == Ok(RuleRef("negation"))
  {
    RuleItem(g, "factor", "negation", false);
  }

  lemma FactorRule(g: Grammar)
    requires g.lex == PascalLex && "factor" in g.rules && g.rules["factor"] == FactorDef
    requires "unsigned_constant" in g.rules && "variable" in g.rules && "func_call" in g.rules
    requires "inner_expr" in g.rules && "negation" in g.rules
    ensures ConvRule(g, "factor") == Ok(FactorNode)
  {
    FactorItemsA(g);
    FactorItemsB(g);
    FactorItemsC(g);
    FactorItemsD(g);
    FactorItemsE(g);
    ListOf5(g, "factor", false, Ref("unsigned_constant"), Ref("variable"), Ref("func_call"), Ref("inner_expr"), Ref("negation"), RuleRef("unsigned_constant"), RuleRef("variable"), RuleRef("func_call"), RuleRef("inner_expr"), RuleRef("negation"));
    EitherTuple(g, "factor", Some("factor"), [Ref("unsigned_constant"), Ref("variable"), Ref("func_call"), Ref("inner_expr"), Ref("negation")], [RuleRef("unsigned_constant"), RuleRef("variable"), RuleRef("func_call"), RuleRef("inner_expr"), RuleRef("negation")]);
    TupleRule(g, "factor");
  }

  lemma FuncCallItemsA(g: Grammar)
    requires g.lex == PascalLex
    requires "name" in g.rules
    ensures ConvItem(g, "func_call", Ref("name"), true) == Ok(RuleRef("name"))
  {
    RuleItem(g, "func_call", "name", true);
  }

  lemma FuncCallAt1SubItemsA(g: Grammar)
    requires g.lex == PascalLex
    ensures ConvItem(g, "func_call", Ref("symbol:("), true) == Ok(Lex("symbol", Some("(")))
  {
    FuncCallAt1SubItemsARefs();
    ValuedTokenItem(g, "func_call", "symbol:(", "symbol", "(", true);
  }

  lemma FuncCallAt1SubAt1ItemsA(g: Grammar)
    requires g.lex == PascalLex
    requires "expression" in g.rules
    ensures ConvItem(g, "func_call", Ref("expression"), false) == Ok(RuleRef("expression"))
  {
    RuleItem(g, "func_call", "expression", false);
  }

  lemma FuncCallAt1SubAt1ItemsB(g: Grammar)
    requires g.lex == PascalLex
    ensures ConvItem(g, "func_call", Ref("symbol:,"), false) == Ok(Lex("symbol", Some(",")))
  {
    FuncCallAt1SubAt1ItemsBRefs();
    ValuedTokenItem(g, "func_call", "symbol:,", "symbol", ",", false);
  }

  lemma FuncCallAt1SubAt1(g: Grammar)
    requires g.lex == PascalLex
    requires "expression" in g.rules
    ensures ConvItem(g, "func_call", Tuple("one_plus", Ref("expression"), Some(Ref("symbol:,"))), true) == Ok(Repeat(None, OnePlus, RuleRef("expression"), Some(Lex("symbol", Some(",")))))
  {
    RepeatKindNames();
    FuncCallAt1SubAt1ItemsA(g);
    FuncCallAt1SubAt1ItemsB(g);
    DelimitedRepeatTuple(g, "func_call", None, OnePlus, Ref("expression"), Ref("symbol:,"), RuleRef("expression"), Lex("symbol", Some(",")));
    TupleItem(g, "func_call", Tuple("one_plus", Ref("expression"), Some(Ref("symbol:,"))), true);
  }

  lemma FuncCallAt1SubItemsB(g: Grammar)
    requires g.lex == PascalLex
    requires "expression" in g.rules
    ensures ConvItem(g, "func_call", Tuple("one_plus", Ref("expression"), Some(Ref("symbol:,"))), true) == Ok(Repeat(None, OnePlus, RuleRef("expression"), Some(Lex("symbol", Some(",")))))
  {
    FuncCallAt1SubAt1(g);
  }

  lemma FuncCallAt1SubItemsC(g: Grammar)
    requires g.lex == PascalLex
    ensures ConvItem(g, "func_call", Ref("symbol:)"), true) == Ok(Lex("symbol", Some(")")))
  {
    FuncCallAt1SubItemsCRefs();
    ValuedTokenItem(g, "func_call", "symbol:)", "symbol", ")", true);
  }

  lemma FuncCallAt1Sub(g: Grammar)
    requires g.lex == PascalLex
    requires "expression" in g.rules
    ensures ConvItem(g, "func_call", Tuple("sequence", List([Ref("symbol:("), Tuple("one_plus", Ref("expression"), Some(Ref("symbol:,"))), Ref("symbol:)")]), None), false) == Ok(Sequence(None, [Lex("symbol", Some("(")), Repeat(None, OnePlus, RuleRef("expression"), Some(Lex("symbol", Some(",")))), Lex("symbol", Some(")"))]))
  {
    FuncCallAt1SubItemsA(g);
    FuncCallAt1SubItemsB(g);
    FuncCallAt1SubItemsC(g);
    ListOf3(g, "func_call", true, Ref("symbol:("), Tuple("one_plus", Ref("expression"), Some(Ref("symbol:,"))), Ref("symbol:)"), Lex("symbol", Some("(")), Repeat(None, OnePlus, RuleRef("expression"), Some(Lex("symbol", Some(",")))), Lex("symbol", Some(")")));
    SequenceTuple(g, "func_call", None, [Ref("symbol:("), Tuple("one_plus", Ref("expression"), Some(Ref("symbol:,"))), Ref("symbol:)")], [Lex("symbol", Some("(")), Repeat(None, OnePlus, RuleRef("expression"), Some(Lex("symbol", Some(",")))), Lex("symbol", Some(")"))]);
    TupleItem(g, "func_call", Tuple("sequence", List([Ref("symbol:("), Tuple("one_plus", Ref("expression"), Some(Ref("symbol:,"))), Ref("symbol:)")]), None), false);
  }

  lemma FuncCallAt1Items(g: Grammar)
    requires g.lex == PascalLex
    requires "expression" in g.rules
    ensures ConvItem(g, "func_call", Tuple("sequence", List([Ref("symbol:("), Tuple("one_plus", Ref("expression"), Some(Ref("symbol:,"))), Ref("symbol:)")]), None), false) == Ok(Sequence(None, [Lex("symbol", Some("(")), Repeat(None, OnePlus, RuleRef("expression"), Some(Lex("symbol", Some(",")))), Lex("symbol", Some(")"))]))
  {
    FuncCallAt1Sub(g);
  }

  lemma FuncCallAt1(g: Grammar)
    requires g.lex == PascalLex
    requires "expression" in g.rules
    ensures ConvItem(g, "func_call", Tuple("optional", Tuple("sequence", List([Ref("symbol:("), Tuple("one_plus", Ref("expression"), Some(Ref("symbol:,"))), Ref("symbol:)")]), None), None), true) == Ok(Optional(None, Sequence(None, [Lex("symbol", Some("(")), Repeat(None, OnePlus, RuleRef("expression"), Some(Lex("symbol", Some(",")))), Lex("symbol", Some(")"))])))
  {
    FuncCallAt1Items(g);
    OptionalTuple(g, "func_call", None, Tuple("sequence", List([Ref("symbol:("), Tuple("one_plus", Ref("expression"), Some(Ref("symbol:,"))), Ref("symbol:)")]), None), Sequence(None, [Lex("symbol", Some("(")), Repeat(None, OnePlus, RuleRef("expression"), Some(Lex("symbol", Some(",")))), Lex("symbol", Some(")"))]));
    TupleItem(g, "func_call", Tuple("optional", Tuple("sequence", List([Ref("symbol:("), Tuple("one_plus", Ref("expression"), Some(Ref("symbol:,"))), Ref("symbol:)")]), None), None), true);
  }

  lemma FuncCallItemsB(g: Grammar)
    requires g.lex == PascalLex
    requires "expression" in g.rules
    ensures ConvItem(g, "func_call", Tuple("optional", Tuple("sequence", List([Ref("symbol:("), Tuple("one_plus", Ref("expression"), Some(Ref("symbol:,"))), Ref("symbol:)")]), None), None), true) == Ok(Optional(None, Sequence(None, [Lex("symbol", Some("(")), Repeat(None, OnePlus, RuleRef("expression"), Some(Lex("symbol", Some(",")))), Lex("symbol", Some(")"))])))
  {
    FuncCallAt1(g);
  }

  lemma FuncCallRule(g: Grammar)
    requires g.lex == PascalLex && "func_call" in g.rules && g.rules["func_call"] == FuncCallDef
    requires "name" in g.rules && "expression" in g.rules
    ensures ConvRule(g, "func_call") == Ok(FuncCallNode)
  {
    FuncCallItemsA(g);
    FuncCallItemsB(g);
    ListOf2(g, "func_call", true, Ref("name"), Tuple("optional", Tuple("sequence", List([Ref("symbol:("), Tuple("one_plus", Ref("expression"), Some(Ref("symbol:,"))), Ref("symbol:)")]), None), None), RuleRef("name"), Optional(None, Sequence(None, [Lex("symbol", Some("(")), Repeat(None, OnePlus, RuleRef("expression"), Some(Lex("symbol", Some(",")))), Lex("symbol", Some(")"))])));
    SequenceTuple(g, "func_call", Some("func_call"), [Ref("name"), Tuple("optional", Tuple("sequence", List([Ref("symbol:("), Tuple("one_plus", Ref("expression"), Some(Ref("symbol:,"))), Ref("symbol:)")]), None), None)], [RuleRef("name"), Optional(None, Sequence(None, [Lex("symbol", Some("(")), Repeat(None, OnePlus, RuleRef("expression"), Some(Lex("symbol", Some(",")))), Lex("symbol", Some(")"))]))]);
    TupleRule(g, "func_call");
  }

  lemma InnerExprItemsA(g: Grammar)
    requires g.lex == PascalLex
    ensures ConvItem(g, "inner_expr", Ref("symbol:("), true) == Ok(Lex("symbol", Some("(")))
  {
    InnerExprItemsARefs();
    ValuedTokenItem(g, "inner_expr", "symbol:(", "symbol", "(", true);
  }

  lemma InnerExprItemsB(g: Grammar)
    requires g.lex == PascalLex
    requires "expression" in g.rules
    ensures ConvItem(g, "inner_expr", Ref("expression"), true) == Ok(RuleRef("expression"))
  {
    RuleItem(g, "inner_expr", "expression", true);
  }

  lemma InnerExprItemsC(g: Grammar)
    requires g.lex == PascalLex
    ensures ConvItem(g, "inner_expr", Ref("symbol:)"), true) == Ok(Lex("symbol", Some(")")))
  {
    InnerExprItemsCRefs();
    ValuedTokenItem(g, "inner_expr", "symbol:)", "symbol", ")", true);
  }

  lemma InnerExprRule(g: Grammar)
    requires g.lex == PascalLex && "inner_expr" in g.rules && g.rules["inner_expr"] == InnerExprDef
    requires "expression" in g.rules
    ensures ConvRule(g, "inner_expr") == Ok(InnerExprNode)
  {
    InnerExprItemsA(g);
    InnerExprItemsB(g);
    InnerExprItemsC(g);
    ListOf3(g, "inner_expr", true, Ref("symbol:("), Ref("expression"), Ref("symbol:)"), Lex("symbol", Some("(")), RuleRef("expression"), Lex("symbol", Some(")")));
    SequenceTuple(g, "inner_expr", Some("inner_expr"), [Ref("symbol:("), Ref("expression"), Ref("symbol:)")], [Lex("symbol", Some("(")), RuleRef("expression"), Lex("symbol", Some(")"))]);
    TupleRule(g, "inner_expr");
  }

  lemma NegationItemsA(g: Grammar)
    requires g.lex == PascalLex
    ensures ConvItem(g, "negation", Ref("word:not"), true) == Ok(Lex("word", Some("not")))
  {
    NegationItemsARefs();
    ValuedTokenItem(g, "negation", "word:not", "word", "not", true);
  }

  lemma NegationItemsB(g: Grammar)
    requires g.lex == PascalLex
    requires "factor" in g.rules
    ensures ConvItem(g, "negation", Ref("factor"), true) == Ok(RuleRef("factor"))
  {
    RuleItem(g, "negation", "factor", true);
  }

  /** `factor` refers back to `negation`: the edge is shared, not expanded. */
  lemma NegationRule(g: Grammar)
    requires g.lex == PascalLex && "negation" in g.rules && g.rules["negation"] == NegationDef
    requires "factor" in g.rules
    ensures ConvRule(g, "negation") == Ok(NegationNode)
  {
    NegationItemsA(g);
    NegationItemsB(g);
    ListOf2(g, "negation", true, Ref("word:not"), Ref("factor"), Lex("word", Some("not")), RuleRef("factor"));
    SequenceTuple(g, "negation", Some("negation"), [Ref("word:not"), Ref("factor")], [Lex("word", Some("not")), RuleRef("factor")]);
    TupleRule(g, "negation");
  }

  lemma TypeRule(g: Grammar)
    requires g.lex == PascalLex && "type" in g.rules && g.rules["type"] == TypeDef
    ensures ConvRule(g, "type") == Ok(TypeNode)
  {
    TokenItem(g, "type", "word", false);
    OneTuple(g, "type", Some("type"), Ref("word"), Lex("word", None));
    TupleRule(g, "type");
  }

  // ---- the whole grammar --------------------------------------------------

  /** Every rule of the program, its block and types converts. */
  lemma ProgramRulesConvert(g: Grammar)
    requires g.lex == PascalLex && PascalRuleNames <= g.rules.Keys && ProgramDefs(g)
    ensures forall r | r in ProgramRules :: ConvRule(g, r).Ok?
  {
    forall r | r in ProgramRules
      ensures ConvRule(g, r).Ok?
    {
      if r == "main" {
        MainRule(g);
      } else if r == "name" {
        NameRule(g);
      } else if r == "block" {
        BlockRule(g);
      } else if r == "type_name" {
        TypeNameRule(g);
      } else {
        assert r == "array_type";
        ArrayTypeRule(g);
      }
    }
  }

  /** Every rule of constant and variable declarations converts. */
  lemma DeclarationRulesConvert(g: Grammar)
    requires g.lex == PascalLex && PascalRuleNames <= g.rules.Keys && DeclarationDefs(g)
    ensures forall r | r in DeclarationRules :: ConvRule(g, r).Ok?
  {
    forall r | r in DeclarationRules
      ensures ConvRule(g, r).Ok?
    {
      if r == "const_decl_part" {
        ConstDeclPartRule(g);
      } else if r == "const_decl" {
        ConstDeclRule(g);
      } else if r == "constant" {
        ConstantRule(g);
      } else if r == "unsigned_constant" {
        UnsignedConstantRule(g);
      } else if r == "prefix_opr" {
        PrefixOprRule(g);
      } else if r == "var_decl_part" {
        VarDeclPartRule(g);
      } else {
        assert r == "var_decl";
        VarDeclRule(g);
      }
    }
  }

  /** Every rule of routines, their parameters and statement lists converts. */
  lemma RoutineRulesConvert(g: Grammar)
    requires g.lex == PascalLex && PascalRuleNames <= g.rules.Keys && RoutineDefs(g)
    ensures forall r | r in RoutineRules :: ConvRule(g, r).Ok?
  {
    forall r | r in RoutineRules
      ensures ConvRule(g, r).Ok?
    {
      if r == "func_decl" {
        FuncDeclRule(g);
      } else if r == "proc_decl" {
        ProcDeclRule(g);
      } else if r == "param_decl_list" {
        ParamDeclListRule(g);
      } else if r == "param_decl" {
        ParamDeclRule(g);
      } else if r == "stmt_list" {
        StmtListRule(g);
      } else if r == "statement" {
        StatementRule(g);
      } else {
        assert r == "empty_stmt";
        EmptyStmtRule(g);
      }
    }
  }

  /** Every rule of the other statements converts. */
  lemma StatementRulesConvert(g: Grammar)
    requires g.lex == PascalLex && PascalRuleNames <= g.rules.Keys && StatementDefs(g)
    ensures forall r | r in StatementRules :: ConvRule(g, r).Ok?
  {
    forall r | r in StatementRules
      ensures ConvRule(g, r).Ok?
    {
      if r == "assign_stmt" {
        AssignStmtRule(g);
      } else if r == "variable" {
        VariableRule(g);
      } else if r == "proc_call" {
        ProcCallRule(g);
      } else if r == "if_stmt" {
        IfStmtRule(g);
      } else if r == "while_stmt" {
        WhileStmtRule(g);
      } else {
        assert r == "compound_stmt";
        CompoundStmtRule(g);
      }
    }
  }

  /** Every rule of expressions and terms converts. */
  lemma ExpressionRulesConvert(g: Grammar)
    requires g.lex == PascalLex && PascalRuleNames <= g.rules.Keys && ExpressionDefs(g)
    ensures forall r | r in ExpressionRules :: ConvRule(g, r).Ok?
  {
    forall r | r in ExpressionRules
      ensures ConvRule(g, r).Ok?
    {
      if r == "expression" {
        ExpressionRule(g);
      } else if r == "rel_opr" {
        RelOprRule(g);
      } else if r == "simple_expr" {
        SimpleExprRule(g);
      } else if r == "term_opr" {
        TermOprRule(g);
      } else if r == "term" {
        TermRule(g);
      } else {
        assert r == "factor_opr";
        FactorOprRule(g);
      }
    }
  }

  /** Every rule of factors and the type rule converts. */
  lemma FactorRulesConvert(g: Grammar)
    requires g.lex == PascalLex && PascalRuleNames <= g.rules.Keys && FactorDefs(g)
    ensures forall r | r in FactorRules :: ConvRule(g, r).Ok?
  {
    forall r | r in FactorRules
      ensures ConvRule(g, r).Ok?
    {
      if r == "factor" {
        FactorRule(g);
      } else if r == "func_call" {
        FuncCallRule(g);
      } else if r == "inner_expr" {
        InnerExprRule(g);
      } else if r == "negation" {
        NegationRule(g);
      } else {
        assert r == "type";
        TypeRule(g);
      }
    }
  }

  /** Every rule of the pascal tables converts, the unreachable `array_type`
      included. */
  lemma PascalRulesConvert(g: Grammar)
    requires PascalShape(g)
    ensures forall r | r in g.rules :: ConvRule(g, r).Ok?
  {
    ProgramRulesConvert(g);
    DeclarationRulesConvert(g);
    RoutineRulesConvert(g);
    StatementRulesConvert(g);
    ExpressionRulesConvert(g);
    FactorRulesConvert(g);
  }

  /** `block` is an edge of the root, and `var_decl_part` an edge of `block`. */
  lemma PascalEdges()
    ensures "block" in NodeRefs(MainNode) && "var_decl_part" in NodeRefs(BlockNode)
  {
    var m, b := MainNode.items, BlockNode.items;
    RefsOf5(m[0], m[1], m[2], m[3], m[4]);
    RefsOf6(b[0], b[1], b[2], b[3], b[4], b[5]);
  }

  lemma PascalReachable(g: Grammar)
    requires PascalShape(g)
    ensures Reachable(g, Root) && Reachable(g, "block") && Reachable(g, "var_decl_part")
  {
    MainRule(g);
    BlockRule(g);
    PascalEdges();
    RootReachable(g);
    EdgeReachable(g, Root, MainNode, "block");
    EdgeReachable(g, "block", BlockNode, "var_decl_part");
  }

  /** The path `.subRule[3].subRule[1].subRule.subRule[1]` from the root goes
      through the shared `block` node, the optional variable declarations
      and the shared `var_decl_part` node, and ends at its verified marker. */
  lemma PascalPath(graph: Graph)
    requires Root in graph && "block" in graph && "var_decl_part" in graph
    requires graph[Root] == MainNode && graph["block"] == BlockNode
    requires graph["var_decl_part"] == VarDeclPartNode
    ensures Follow(graph, graph[Root], [At(3), At(1), Sub, At(1)]) == Some(Verified)
  {
    var path := [At(3), At(1), Sub, At(1)];
    assert path[1..] == [At(1), Sub, At(1)] && path[2..] == [Sub, At(1)] && path[3..] == [At(1)];
  }

  /** Converting the pascal tables succeeds (`PascalShape` pins the grammar
      down completely: its token list, its rule names and every definition),
      the root, `block` and `var_decl_part` are converted as above, and the
      path the example inspects leads to a verified marker. */
  lemma PascalConverted(g: Grammar, res: Result<Graph>)
    requires PascalShape(g) && ConvertSpec(g, res)
    ensures res.Ok? && Root in res.value && "block" in res.value && "var_decl_part" in res.value
    ensures res.value[Root] == MainNode && res.value["block"] == BlockNode
    ensures res.value["var_decl_part"] == VarDeclPartNode
    ensures Follow(res.value, res.value[Root], [At(3), At(1), Sub, At(1)]) == Some(Verified)
  {
    PascalRulesConvert(g);
    EveryRuleConverts(g, res);
    PascalReachable(g);
    ConversionKeepsReachable(g, res.value, Root);
    ConversionKeepsReachable(g, res.value, "block");
    ConversionKeepsReachable(g, res.value, "var_decl_part");
    MainRule(g);
    BlockRule(g);
    VarDeclPartRule(g);
    PascalPath(res.value);
  }
}
