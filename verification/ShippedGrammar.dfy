/**
 The grammar of statements as the repository ships it: its rows, and the table
 that names a row for a nonterminal and the next token.  Rules for built-ins
 outside the model are foreign.
 */
module ShippedGrammar {
  import opened Words
  import opened Script
  import opened Ll
  import ShippedTables

  const ROWS: nat := 134
  const NON_TERMINALS: nat := 34
  const TERMINALS: nat := 73

  // Nonterminals; a primed name ends in REST.
  const N_ELSE_STATEMENT: nat := 0
  const N_BOOLEAN_EXPRESSION: nat := 1
  const N_CALL_FUNC_STATEMENT: nat := 2
  const N_L_VALUE: nat := 3
  const N_E2_REST: nat := 4
  const N_INC_DEC_REST: nat := 5
  const N_VA: nat := 6
  const N_S: nat := 7
  const N_E4: nat := 8
  const N_E5: nat := 9
  const N_E5_REST: nat := 10
  const N_INC_DEC: nat := 11
  const N_IF_STATEMENT: nat := 12
  const N_E0_REST: nat := 13
  const N_SIMPLE_ASSIGNMENT: nat := 14
  const N_ASSIGNMENT_STATEMENT: nat := 15
  const N_STRING: nat := 16
  const N_END_OF_IF: nat := 17
  const N_E4_REST: nat := 18
  const N_FOR_STATEMENT: nat := 19
  const N_WHILE_STATEMENT: nat := 20
  const N_E2: nat := 21
  const N_STATEMENT: nat := 22
  const N_EXPRESSION: nat := 23
  const N_ELSIF_STATEMENT_REST: nat := 24
  const N_E12: nat := 25
  const N_E3_REST: nat := 26
  const N_E1: nat := 27
  const N_DO_WHILE_STATEMENT: nat := 28
  const N_ELSIF_STATEMENT: nat := 29
  const N_E3: nat := 30
  const N_E1_REST: nat := 31
  const N_ASSIGNMENT_STATEMENT_REST: nat := 32
  const N_SIMPLE_ASSIGNMENT_REST: nat := 33

  // Terminals.
  const T_SPINLOCK_UNLOCK: nat := 0
  const T_INTERLOCKED_COMPARE_EXCHANGE: nat := 1
  const T_PLUS: nat := 2
  const T_PAUSE: nat := 3
  const T_INTERLOCKED_EXCHANGE: nat := 4
  const T_FORMATS: nat := 5
  const T_EVENT_IGNORE: nat := 6
  const T_DB: nat := 7
  const T_DD: nat := 8
  const T_NEG: nat := 9
  const T_HI: nat := 10
  const T_INTERLOCKED_INCREMENT: nat := 11
  const T_ED: nat := 12
  const T_AMP: nat := 13
  const T_SHR: nat := 14
  const T_PSEUDO_REGISTER: nat := 15
  const T_SLASH: nat := 16
  const T_END: nat := 17
  const T_STRLEN: nat := 18
  const T_ASSIGN: nat := 19
  const T_POI: nat := 20
  const T_EVENT_DISABLE: nat := 21
  const T_OCTAL: nat := 22
  const T_REGISTER: nat := 23
  const T_WCSLEN: nat := 24
  const T_VIRTUAL_TO_PHYSICAL: nat := 25
  const T_ELSE: nat := 26
  const T_DO: nat := 27
  const T_DQ: nat := 28
  const T_INTERLOCKED_EXCHANGE_ADD: nat := 29
  const T_STRING: nat := 30
  const T_SPINLOCK_LOCK_CUSTOM_WAIT: nat := 31
  const T_NOT: nat := 32
  const T_CONTINUE: nat := 33
  const T_BINARY: nat := 34
  const T_ELSIF: nat := 35
  const T_INC: nat := 36
  const T_WHILE: nat := 37
  const T_DECIMAL: nat := 38
  const T_INTERLOCKED_DECREMENT: nat := 39
  const T_LOCAL_ID: nat := 40
  const T_PHYSICAL_TO_VIRTUAL: nat := 41
  const T_REFERENCE: nat := 42
  const T_SHL: nat := 43
  const T_PRINT: nat := 44
  const T_PRINTF: nat := 45
  const T_SPINLOCK_LOCK: nat := 46
  const T_LOW: nat := 47
  const T_SEMI: nat := 48
  const T_IF: nat := 49
  const T_HEX: nat := 50
  const T_EQ: nat := 51
  const T_OPEN: nat := 52
  const T_CLOSE: nat := 53
  const T_GLOBAL_ID: nat := 54
  const T_TILDE: nat := 55
  const T_EB: nat := 56
  const T_COMMA: nat := 57
  const T_STAR: nat := 58
  const T_CARET: nat := 59
  const T_BAR: nat := 60
  const T_BREAK: nat := 61
  const T_EVENT_ENABLE: nat := 62
  const T_FLUSH: nat := 63
  const T_RBRACE: nat := 64
  const T_LBRACE: nat := 65
  const T_DW: nat := 66
  const T_CHECK_ADDRESS: nat := 67
  const T_PERCENT: nat := 68
  const T_DEC: nat := 69
  const T_TEST_STATEMENT: nat := 70
  const T_FOR: nat := 71
  const T_MINUS: nat := 72

  /** The built-ins that return a value. */
  const VALUE_CALLS: set<nat> := {T_INTERLOCKED_COMPARE_EXCHANGE, T_INTERLOCKED_EXCHANGE, T_DB, T_DD, T_NEG, T_HI,
    T_INTERLOCKED_INCREMENT, T_ED, T_STRLEN, T_POI, T_WCSLEN, T_VIRTUAL_TO_PHYSICAL, T_DQ,
    T_INTERLOCKED_EXCHANGE_ADD, T_NOT, T_INTERLOCKED_DECREMENT, T_PHYSICAL_TO_VIRTUAL, T_REFERENCE, T_LOW, T_EQ,
    T_EB, T_DW, T_CHECK_ADDRESS}

  const CALLS: set<nat> := VALUE_CALLS + {T_SPINLOCK_UNLOCK, T_PAUSE, T_FORMATS, T_EVENT_IGNORE, T_EVENT_DISABLE,
    T_SPINLOCK_LOCK_CUSTOM_WAIT, T_PRINT, T_PRINTF, T_SPINLOCK_LOCK, T_EVENT_ENABLE, T_FLUSH, T_TEST_STATEMENT}
  const PLACES: set<nat> := {T_REGISTER, T_LOCAL_ID, T_GLOBAL_ID}
  const NUMBERS: set<nat> := {T_HEX, T_DECIMAL, T_OCTAL, T_BINARY}
  const STARTS: set<nat> := CALLS + PLACES + {T_DO, T_CONTINUE, T_WHILE, T_IF, T_BREAK, T_FOR}
  const AFTER_IF: set<nat> := STARTS + {T_END, T_RBRACE, T_LBRACE}
  const AFTER_ELSIF: set<nat> := AFTER_IF + {T_ELSE}
  const EXPRESSIONS: set<nat> :=
    VALUE_CALLS + PLACES + NUMBERS + {T_PSEUDO_REGISTER, T_OPEN, T_PLUS, T_MINUS, T_TILDE, T_STAR, T_AMP}

  // ---------------------------------------------------------------- rows

  function LhsOf(p: nat): nat {
    if p <= 70 then StatementLhs(p) else ExpressionLhs(p)
  }

  function StatementLhs(p: nat): nat {
    if p <= 2 then N_S
    else if p <= 10 then N_STATEMENT
    else if p <= 11 then N_ASSIGNMENT_STATEMENT
    else if p <= 14 then N_ASSIGNMENT_STATEMENT_REST
    else if p <= 49 then N_CALL_FUNC_STATEMENT
    else if p <= 51 then N_VA
    else if p <= 52 then N_IF_STATEMENT
    else if p <= 54 then N_ELSIF_STATEMENT
    else if p <= 55 then N_ELSIF_STATEMENT_REST
    else if p <= 57 then N_ELSE_STATEMENT
    else if p <= 58 then N_END_OF_IF
    else if p <= 59 then N_WHILE_STATEMENT
    else if p <= 60 then N_DO_WHILE_STATEMENT
    else if p <= 61 then N_FOR_STATEMENT
    else if p <= 63 then N_SIMPLE_ASSIGNMENT
    else if p <= 64 then N_SIMPLE_ASSIGNMENT_REST
    else if p <= 65 then N_INC_DEC
    else if p <= 69 then N_INC_DEC_REST
    else N_BOOLEAN_EXPRESSION
  }

  function ExpressionLhs(p: nat): nat {
    if p <= 71 then N_EXPRESSION
    else if p <= 73 then N_E0_REST
    else if p <= 74 then N_E1
    else if p <= 76 then N_E1_REST
    else if p <= 77 then N_E2
    else if p <= 79 then N_E2_REST
    else if p <= 80 then N_E3
    else if p <= 83 then N_E3_REST
    else if p <= 84 then N_E4
    else if p <= 87 then N_E4_REST
    else if p <= 88 then N_E5
    else if p <= 92 then N_E5_REST
    else if p <= 129 then N_E12
    else if p <= 130 then N_STRING
    else N_L_VALUE
  }

  function RhsOf(p: nat): seq<Item> {
    if p <= 14 then StatementRows(p)
    else if p <= 22 then ReportRows(p)
    else if p <= 30 then CallRows(p)
    else if p <= 38 then MoreCallRows(p)
    else if p <= 43 then LastCallRows(p)
    else if p <= 49 then TwoArgumentCallRows(p)
    else if p <= 58 then BranchRows(p)
    else if p <= 70 then LoopRows(p)
    else if p <= 83 then ExpressionRows(p)
    else if p <= 92 then TermRows(p)
    else if p <= 104 then UnaryCallRows(p)
    else if p <= 109 then MoreUnaryCallRows(p)
    else if p <= 115 then TwoArgumentRows(p)
    else if p <= 129 then PrimaryRows(p)
    else OperandRows(p)
  }

  function StatementRows(p: nat): seq<Item> {
    match p
    case 0 => [Phrase(N_STATEMENT), Phrase(N_S)]
    case 1 => [Word(T_LBRACE), Phrase(N_STATEMENT), Phrase(N_S), Word(T_RBRACE)]
    case 2 => []
    case 3 => [Phrase(N_IF_STATEMENT)]
    case 4 => [Phrase(N_WHILE_STATEMENT)]
    case 5 => [Phrase(N_DO_WHILE_STATEMENT)]
    case 6 => [Phrase(N_FOR_STATEMENT)]
    case 7 => [Phrase(N_ASSIGNMENT_STATEMENT), Word(T_SEMI)]
    case 8 => [Phrase(N_CALL_FUNC_STATEMENT), Word(T_SEMI)]
    case 9 => [Word(T_BREAK), Act(BreakRule), Word(T_SEMI)]
    case 10 => [Word(T_CONTINUE), Act(ContinueRule), Word(T_SEMI)]
    case 11 => [Phrase(N_L_VALUE), Phrase(N_ASSIGNMENT_STATEMENT_REST)]
    case 12 => [Word(T_INC), Act(Inc)]
    case 13 => [Word(T_DEC), Act(Dec)]
    case _ => [Word(T_ASSIGN), Phrase(N_EXPRESSION), Act(Mov)]
  }

  function ReportRows(p: nat): seq<Item> {
    match p
    case 15 => [Word(T_PRINT), Word(T_OPEN), Phrase(N_EXPRESSION), Act(ReportRule(Print)), Word(T_CLOSE)]
    case 16 => [Word(T_FORMATS), Word(T_OPEN), Phrase(N_EXPRESSION), Act(ReportRule(Formats)), Word(T_CLOSE)]
    case 17 => [Word(T_EVENT_ENABLE), Word(T_OPEN), Phrase(N_EXPRESSION), Act(ReportRule(EventEnable)),
      Word(T_CLOSE)]
    case 18 => [Word(T_EVENT_DISABLE), Word(T_OPEN), Phrase(N_EXPRESSION), Act(ReportRule(EventDisable)),
      Word(T_CLOSE)]
    case 19 => [Word(T_TEST_STATEMENT), Word(T_OPEN), Phrase(N_EXPRESSION), Act(ReportRule(TestStatement)),
      Word(T_CLOSE)]
    case 20 => [Word(T_SPINLOCK_LOCK), Word(T_OPEN), Phrase(N_EXPRESSION), Act(ForeignRule), Word(T_CLOSE)]
    case 21 => [Word(T_SPINLOCK_UNLOCK), Word(T_OPEN), Phrase(N_EXPRESSION), Act(ForeignRule), Word(T_CLOSE)]
    case _ => [Word(T_PRINTF), Word(T_OPEN), Phrase(N_STRING), Act(VargStart), Phrase(N_VA), Act(PrintfRule),
      Word(T_CLOSE)]
  }

  function CallRows(p: nat): seq<Item> {
    match p
    case 23 => [Word(T_PAUSE), Word(T_OPEN), Act(ForeignRule), Word(T_CLOSE)]
    case 24 => [Word(T_FLUSH), Word(T_OPEN), Act(ForeignRule), Word(T_CLOSE)]
    case 25 => [Word(T_EVENT_IGNORE), Word(T_OPEN), Act(ForeignRule), Word(T_CLOSE)]
    case 26 => [Word(T_SPINLOCK_LOCK_CUSTOM_WAIT), Word(T_OPEN), Phrase(N_EXPRESSION), Word(T_COMMA),
      Phrase(N_EXPRESSION), Act(ForeignRule), Word(T_CLOSE)]
    case 27 => [Word(T_POI), Word(T_OPEN), Phrase(N_EXPRESSION), Act(ForeignRule), Word(T_CLOSE), Act(ForeignRule)]
    case 28 => [Word(T_DB), Word(T_OPEN), Phrase(N_EXPRESSION), Act(ForeignRule), Word(T_CLOSE), Act(ForeignRule)]
    case 29 => [Word(T_DD), Word(T_OPEN), Phrase(N_EXPRESSION), Act(ForeignRule), Word(T_CLOSE), Act(ForeignRule)]
    case _ => [Word(T_DW), Word(T_OPEN), Phrase(N_EXPRESSION), Act(ForeignRule), Word(T_CLOSE), Act(ForeignRule)]
  }

  function MoreCallRows(p: nat): seq<Item> {
    match p
    case 31 => [Word(T_DQ), Word(T_OPEN), Phrase(N_EXPRESSION), Act(ForeignRule), Word(T_CLOSE), Act(ForeignRule)]
    case 32 => [Word(T_NEG), Word(T_OPEN), Phrase(N_EXPRESSION), Act(UnaryRule(Neg)), Word(T_CLOSE),
      Act(ForeignRule)]
    case 33 => [Word(T_HI), Word(T_OPEN), Phrase(N_EXPRESSION), Act(ForeignRule), Word(T_CLOSE), Act(ForeignRule)]
    case 34 => [Word(T_LOW), Word(T_OPEN), Phrase(N_EXPRESSION), Act(ForeignRule), Word(T_CLOSE), Act(ForeignRule)]
    case 35 => [Word(T_NOT), Word(T_OPEN), Phrase(N_EXPRESSION), Act(UnaryRule(Not)), Word(T_CLOSE),
      Act(ForeignRule)]
    case 36 => [Word(T_CHECK_ADDRESS), Word(T_OPEN), Phrase(N_EXPRESSION), Act(ForeignRule), Word(T_CLOSE),
      Act(ForeignRule)]
    case 37 => [Word(T_STRLEN), Word(T_OPEN), Phrase(N_EXPRESSION), Act(ForeignRule), Word(T_CLOSE),
      Act(ForeignRule)]
    case _ => [Word(T_WCSLEN), Word(T_OPEN), Phrase(N_EXPRESSION), Act(ForeignRule), Word(T_CLOSE),
      Act(ForeignRule)]
  }

  function LastCallRows(p: nat): seq<Item> {
    match p
    case 39 => [Word(T_INTERLOCKED_INCREMENT), Word(T_OPEN), Phrase(N_EXPRESSION), Act(ForeignRule), Word(T_CLOSE),
      Act(ForeignRule)]
    case 40 => [Word(T_INTERLOCKED_DECREMENT), Word(T_OPEN), Phrase(N_EXPRESSION), Act(ForeignRule), Word(T_CLOSE),
      Act(ForeignRule)]
    case 41 => [Word(T_REFERENCE), Word(T_OPEN), Phrase(N_EXPRESSION), Act(ForeignRule), Word(T_CLOSE),
      Act(ForeignRule)]
    case 42 => [Word(T_PHYSICAL_TO_VIRTUAL), Word(T_OPEN), Phrase(N_EXPRESSION), Act(ForeignRule), Word(T_CLOSE),
      Act(ForeignRule)]
    case _ => [Word(T_VIRTUAL_TO_PHYSICAL), Word(T_OPEN), Phrase(N_EXPRESSION), Act(ForeignRule), Word(T_CLOSE),
      Act(ForeignRule)]
  }

  function TwoArgumentCallRows(p: nat): seq<Item> {
    match p
    case 44 => [Word(T_ED), Word(T_OPEN), Phrase(N_EXPRESSION), Word(T_COMMA), Phrase(N_EXPRESSION),
      Act(ForeignRule), Word(T_CLOSE), Act(ForeignRule)]
    case 45 => [Word(T_EB), Word(T_OPEN), Phrase(N_EXPRESSION), Word(T_COMMA), Phrase(N_EXPRESSION),
      Act(ForeignRule), Word(T_CLOSE), Act(ForeignRule)]
    case 46 => [Word(T_EQ), Word(T_OPEN), Phrase(N_EXPRESSION), Word(T_COMMA), Phrase(N_EXPRESSION),
      Act(ForeignRule), Word(T_CLOSE), Act(ForeignRule)]
    case 47 => [Word(T_INTERLOCKED_EXCHANGE), Word(T_OPEN), Phrase(N_EXPRESSION), Word(T_COMMA),
      Phrase(N_EXPRESSION), Act(ForeignRule), Word(T_CLOSE), Act(ForeignRule)]
    case 48 => [Word(T_INTERLOCKED_EXCHANGE_ADD), Word(T_OPEN), Phrase(N_EXPRESSION), Word(T_COMMA),
      Phrase(N_EXPRESSION), Act(ForeignRule), Word(T_CLOSE), Act(ForeignRule)]
    case _ => [Word(T_INTERLOCKED_COMPARE_EXCHANGE), Word(T_OPEN), Phrase(N_EXPRESSION), Word(T_COMMA),
      Phrase(N_EXPRESSION), Word(T_COMMA), Phrase(N_EXPRESSION), Act(ForeignRule), Word(T_CLOSE), Act(ForeignRule)]
  }

  function BranchRows(p: nat): seq<Item> {
    match p
    case 50 => [Word(T_COMMA), Phrase(N_EXPRESSION), Phrase(N_VA)]
    case 51 => []
    case 52 => [Word(T_IF), Act(StartOfIf), Word(T_OPEN), Boolean(T_CLOSE), Act(Jz), Word(T_LBRACE), Phrase(N_S),
      Word(T_RBRACE), Phrase(N_ELSIF_STATEMENT), Phrase(N_ELSE_STATEMENT), Act(EndOfIf), Phrase(N_END_OF_IF)]
    case 53 => [Word(T_ELSIF), Act(JmpToEndAndJzCompleted), Word(T_OPEN), Boolean(T_CLOSE), Act(Jz), Word(T_LBRACE),
      Phrase(N_S), Word(T_RBRACE), Phrase(N_ELSIF_STATEMENT)]
    case 54 => [Act(JmpToEndAndJzCompleted), Phrase(N_ELSIF_STATEMENT_REST)]
    case 55 => []
    case 56 => [Word(T_ELSE), Word(T_LBRACE), Phrase(N_S), Word(T_RBRACE)]
    case 57 => []
    case _ => []
  }

  function LoopRows(p: nat): seq<Item> {
    match p
    case 59 => [Word(T_WHILE), Act(StartOfWhile), Word(T_OPEN), Boolean(T_CLOSE), Act(StartOfWhileCommands),
      Word(T_LBRACE), Phrase(N_S), Act(EndOfWhile), Word(T_RBRACE)]
    case 60 => [Word(T_DO), Act(StartOfDoWhile), Word(T_LBRACE), Phrase(N_S), Word(T_RBRACE), Word(T_WHILE),
      Word(T_OPEN), Boolean(T_CLOSE), Act(EndOfDoWhile), Word(T_SEMI)]
    case 61 => [Word(T_FOR), Word(T_OPEN), Phrase(N_SIMPLE_ASSIGNMENT), Word(T_SEMI), Act(StartOfFor),
      Boolean(T_SEMI), Act(ForIncDec), Phrase(N_INC_DEC), Word(T_CLOSE), Word(T_LBRACE), Act(StartOfForCommands),
      Phrase(N_S), Act(EndOfFor), Word(T_RBRACE)]
    case 62 => [Phrase(N_L_VALUE), Word(T_ASSIGN), Phrase(N_EXPRESSION), Act(Mov), Phrase(N_SIMPLE_ASSIGNMENT_REST)]
    case 63 => []
    case 64 => []
    case 65 => [Phrase(N_L_VALUE), Phrase(N_INC_DEC_REST)]
    case 66 => [Word(T_INC), Act(Inc)]
    case 67 => [Word(T_DEC), Act(Dec)]
    case 68 => [Word(T_ASSIGN), Phrase(N_EXPRESSION), Act(Mov), Phrase(N_SIMPLE_ASSIGNMENT_REST)]
    case 69 => []
    case _ => []
  }

  function ExpressionRows(p: nat): seq<Item> {
    match p
    case 71 => [Phrase(N_E1), Phrase(N_E0_REST)]
    case 72 => [Word(T_BAR), Phrase(N_E1), Act(BinaryRule(Or)), Phrase(N_E0_REST)]
    case 73 => []
    case 74 => [Phrase(N_E2), Phrase(N_E1_REST)]
    case 75 => [Word(T_CARET), Phrase(N_E2), Act(BinaryRule(Xor)), Phrase(N_E1_REST)]
    case 76 => []
    case 77 => [Phrase(N_E3), Phrase(N_E2_REST)]
    case 78 => [Word(T_AMP), Phrase(N_E3), Act(BinaryRule(And)), Phrase(N_E2_REST)]
    case 79 => []
    case 80 => [Phrase(N_E4), Phrase(N_E3_REST)]
    case 81 => [Word(T_SHR), Phrase(N_E4), Act(BinaryRule(Asr)), Phrase(N_E3_REST)]
    case 82 => [Word(T_SHL), Phrase(N_E4), Act(BinaryRule(Asl)), Phrase(N_E3_REST)]
    case _ => []
  }

  function TermRows(p: nat): seq<Item> {
    match p
    case 84 => [Phrase(N_E5), Phrase(N_E4_REST)]
    case 85 => [Word(T_PLUS), Phrase(N_E5), Act(BinaryRule(Add)), Phrase(N_E4_REST)]
    case 86 => [Word(T_MINUS), Phrase(N_E5), Act(BinaryRule(Sub)), Phrase(N_E4_REST)]
    case 87 => []
    case 88 => [Phrase(N_E12), Phrase(N_E5_REST)]
    case 89 => [Word(T_SLASH), Phrase(N_E12), Act(BinaryRule(Div)), Phrase(N_E5_REST)]
    case 90 => [Word(T_PERCENT), Phrase(N_E12), Act(BinaryRule(Mod)), Phrase(N_E5_REST)]
    case 91 => [Word(T_STAR), Phrase(N_E12), Act(BinaryRule(Mul)), Phrase(N_E5_REST)]
    case _ => []
  }

  function UnaryCallRows(p: nat): seq<Item> {
    match p
    case 93 => [Word(T_POI), Word(T_OPEN), Phrase(N_EXPRESSION), Act(ForeignRule), Word(T_CLOSE)]
    case 94 => [Word(T_DB), Word(T_OPEN), Phrase(N_EXPRESSION), Act(ForeignRule), Word(T_CLOSE)]
    case 95 => [Word(T_DD), Word(T_OPEN), Phrase(N_EXPRESSION), Act(ForeignRule), Word(T_CLOSE)]
    case 96 => [Word(T_DW), Word(T_OPEN), Phrase(N_EXPRESSION), Act(ForeignRule), Word(T_CLOSE)]
    case 97 => [Word(T_DQ), Word(T_OPEN), Phrase(N_EXPRESSION), Act(ForeignRule), Word(T_CLOSE)]
    case 98 => [Word(T_NEG), Word(T_OPEN), Phrase(N_EXPRESSION), Act(UnaryRule(Neg)), Word(T_CLOSE)]
    case 99 => [Word(T_HI), Word(T_OPEN), Phrase(N_EXPRESSION), Act(ForeignRule), Word(T_CLOSE)]
    case 100 => [Word(T_LOW), Word(T_OPEN), Phrase(N_EXPRESSION), Act(ForeignRule), Word(T_CLOSE)]
    case 101 => [Word(T_NOT), Word(T_OPEN), Phrase(N_EXPRESSION), Act(UnaryRule(Not)), Word(T_CLOSE)]
    case 102 => [Word(T_CHECK_ADDRESS), Word(T_OPEN), Phrase(N_EXPRESSION), Act(ForeignRule), Word(T_CLOSE)]
    case 103 => [Word(T_STRLEN), Word(T_OPEN), Phrase(N_EXPRESSION), Act(ForeignRule), Word(T_CLOSE)]
    case _ => [Word(T_WCSLEN), Word(T_OPEN), Phrase(N_EXPRESSION), Act(ForeignRule), Word(T_CLOSE)]
  }

  function MoreUnaryCallRows(p: nat): seq<Item> {
    match p
    case 105 => [Word(T_INTERLOCKED_INCREMENT), Word(T_OPEN), Phrase(N_EXPRESSION), Act(ForeignRule), Word(T_CLOSE)]
    case 106 => [Word(T_INTERLOCKED_DECREMENT), Word(T_OPEN), Phrase(N_EXPRESSION), Act(ForeignRule), Word(T_CLOSE)]
    case 107 => [Word(T_REFERENCE), Word(T_OPEN), Phrase(N_EXPRESSION), Act(ForeignRule), Word(T_CLOSE)]
    case 108 => [Word(T_PHYSICAL_TO_VIRTUAL), Word(T_OPEN), Phrase(N_EXPRESSION), Act(ForeignRule), Word(T_CLOSE)]
    case _ => [Word(T_VIRTUAL_TO_PHYSICAL), Word(T_OPEN), Phrase(N_EXPRESSION), Act(ForeignRule), Word(T_CLOSE)]
  }

  function TwoArgumentRows(p: nat): seq<Item> {
    match p
    case 110 => [Word(T_ED), Word(T_OPEN), Phrase(N_EXPRESSION), Word(T_COMMA), Phrase(N_EXPRESSION),
      Act(ForeignRule), Word(T_CLOSE)]
    case 111 => [Word(T_EB), Word(T_OPEN), Phrase(N_EXPRESSION), Word(T_COMMA), Phrase(N_EXPRESSION),
      Act(ForeignRule), Word(T_CLOSE)]
    case 112 => [Word(T_EQ), Word(T_OPEN), Phrase(N_EXPRESSION), Word(T_COMMA), Phrase(N_EXPRESSION),
      Act(ForeignRule), Word(T_CLOSE)]
    case 113 => [Word(T_INTERLOCKED_EXCHANGE), Word(T_OPEN), Phrase(N_EXPRESSION), Word(T_COMMA),
      Phrase(N_EXPRESSION), Act(ForeignRule), Word(T_CLOSE)]
    case 114 => [Word(T_INTERLOCKED_EXCHANGE_ADD), Word(T_OPEN), Phrase(N_EXPRESSION), Word(T_COMMA),
      Phrase(N_EXPRESSION), Act(ForeignRule), Word(T_CLOSE)]
    case _ => [Word(T_INTERLOCKED_COMPARE_EXCHANGE), Word(T_OPEN), Phrase(N_EXPRESSION), Word(T_COMMA),
      Phrase(N_EXPRESSION), Word(T_COMMA), Phrase(N_EXPRESSION), Act(ForeignRule), Word(T_CLOSE)]
  }

  function PrimaryRows(p: nat): seq<Item> {
    match p
    case 116 => [Word(T_OPEN), Phrase(N_EXPRESSION), Word(T_CLOSE)]
    case 117 => [Push(T_REGISTER)]
    case 118 => [Push(T_LOCAL_ID)]
    case 119 => [Push(T_GLOBAL_ID)]
    case 120 => [Push(T_HEX)]
    case 121 => [Push(T_DECIMAL)]
    case 122 => [Push(T_OCTAL)]
    case 123 => [Push(T_BINARY)]
    case 124 => [Push(T_PSEUDO_REGISTER)]
    case 125 => [Word(T_MINUS), Phrase(N_E12), Act(UnaryRule(Neg))]
    case 126 => [Word(T_PLUS), Phrase(N_E12)]
    case 127 => [Word(T_TILDE), Phrase(N_E12), Act(UnaryRule(Not))]
    case 128 => [Word(T_STAR), Phrase(N_E12), Act(ForeignRule)]
    case _ => [Word(T_AMP), Phrase(N_E12), Act(ForeignRule)]
  }

  function OperandRows(p: nat): seq<Item> {
    match p
    case 130 => [Push(T_STRING)]
    case 131 => [Push(T_GLOBAL_ID)]
    case 132 => [Push(T_LOCAL_ID)]
    case _ => [Push(T_REGISTER)]
  }

  // ---------------------------------------------------------------- the table

  predicate RowFor(p: int, n: nat) {
    p == INVALID || (0 <= p < ROWS && LhsOf(p) == n)
  }

  function CellsElseStatement(a: nat): (p: int)
    ensures RowFor(p, N_ELSE_STATEMENT)
  {
    if a == T_ELSE then 56
    else if a in AFTER_IF then 57
    else INVALID
  }

  function CellsBooleanExpression(a: nat): (p: int)
    ensures RowFor(p, N_BOOLEAN_EXPRESSION)
  {
    if a in {T_SEMI, T_CLOSE} then 70
    else INVALID
  }

  function CellsCallFuncStatement(a: nat): (p: int)
    ensures RowFor(p, N_CALL_FUNC_STATEMENT)
  {
    if a == T_PRINT then 15
    else if a == T_FORMATS then 16
    else if a == T_EVENT_ENABLE then 17
    else if a == T_EVENT_DISABLE then 18
    else if a == T_TEST_STATEMENT then 19
    else if a == T_SPINLOCK_LOCK then 20
    else if a == T_SPINLOCK_UNLOCK then 21
    else if a == T_PRINTF then 22
    else if a == T_PAUSE then 23
    else if a == T_FLUSH then 24
    else if a == T_EVENT_IGNORE then 25
    else if a == T_SPINLOCK_LOCK_CUSTOM_WAIT then 26
    else if a == T_POI then 27
    else if a == T_DB then 28
    else if a == T_DD then 29
    else if a == T_DW then 30
    else if a == T_DQ then 31
    else if a == T_NEG then 32
    else if a == T_HI then 33
    else if a == T_LOW then 34
    else if a == T_NOT then 35
    else if a == T_CHECK_ADDRESS then 36
    else if a == T_STRLEN then 37
    else if a == T_WCSLEN then 38
    else if a == T_INTERLOCKED_INCREMENT then 39
    else if a == T_INTERLOCKED_DECREMENT then 40
    else if a == T_REFERENCE then 41
    else if a == T_PHYSICAL_TO_VIRTUAL then 42
    else if a == T_VIRTUAL_TO_PHYSICAL then 43
    else if a == T_ED then 44
    else if a == T_EB then 45
    else if a == T_EQ then 46
    else if a == T_INTERLOCKED_EXCHANGE then 47
    else if a == T_INTERLOCKED_EXCHANGE_ADD then 48
    else if a == T_INTERLOCKED_COMPARE_EXCHANGE then 49
    else INVALID
  }

  function CellsLValue(a: nat): (p: int)
    ensures RowFor(p, N_L_VALUE)
  {
    if a == T_GLOBAL_ID then 131
    else if a == T_LOCAL_ID then 132
    else if a == T_REGISTER then 133
    else INVALID
  }

  function CellsE2Rest(a: nat): (p: int)
    ensures RowFor(p, N_E2_REST)
  {
    if a == T_AMP then 78
    else if a in {T_SEMI, T_CLOSE, T_COMMA, T_CARET, T_BAR} then 79
    else INVALID
  }

  function CellsIncDecRest(a: nat): (p: int)
    ensures RowFor(p, N_INC_DEC_REST)
  {
    if a == T_INC then 66
    else if a == T_DEC then 67
    else if a == T_ASSIGN then 68
    else if a == T_CLOSE then 69
    else INVALID
  }

  function CellsVa(a: nat): (p: int)
    ensures RowFor(p, N_VA)
  {
    if a == T_COMMA then 50
    else if a == T_CLOSE then 51
    else INVALID
  }

  function CellsS(a: nat): (p: int)
    ensures RowFor(p, N_S)
  {
    if a in STARTS then 0
    else if a == T_LBRACE then 1
    else if a in {T_END, T_RBRACE} then 2
    else INVALID
  }

  function CellsE4(a: nat): (p: int)
    ensures RowFor(p, N_E4)
  {
    if a in EXPRESSIONS then 84
    else INVALID
  }

  function CellsE5(a: nat): (p: int)
    ensures RowFor(p, N_E5)
  {
    if a in EXPRESSIONS then 88
    else INVALID
  }

  function CellsE5Rest(a: nat): (p: int)
    ensures RowFor(p, N_E5_REST)
  {
    if a == T_SLASH then 89
    else if a == T_PERCENT then 90
    else if a == T_STAR then 91
    else if a in {T_PLUS, T_AMP, T_SHR, T_SHL, T_SEMI, T_CLOSE, T_COMMA, T_CARET, T_BAR, T_MINUS} then 92
    else INVALID
  }

  function CellsIncDec(a: nat): (p: int)
    ensures RowFor(p, N_INC_DEC)
  {
    if a in PLACES then 65
    else INVALID
  }

  function CellsIfStatement(a: nat): (p: int)
    ensures RowFor(p, N_IF_STATEMENT)
  {
    if a == T_IF then 52
    else INVALID
  }

  function CellsE0Rest(a: nat): (p: int)
    ensures RowFor(p, N_E0_REST)
  {
    if a == T_BAR then 72
    else if a in {T_SEMI, T_CLOSE, T_COMMA} then 73
    else INVALID
  }

  function CellsSimpleAssignment(a: nat): (p: int)
    ensures RowFor(p, N_SIMPLE_ASSIGNMENT)
  {
    if a in PLACES then 62
    else if a == T_SEMI then 63
    else INVALID
  }

  function CellsAssignmentStatement(a: nat): (p: int)
    ensures RowFor(p, N_ASSIGNMENT_STATEMENT)
  {
    if a in PLACES then 11
    else INVALID
  }

  function CellsString(a: nat): (p: int)
    ensures RowFor(p, N_STRING)
  {
    if a == T_STRING then 130
    else INVALID
  }

  function CellsEndOfIf(a: nat): (p: int)
    ensures RowFor(p, N_END_OF_IF)
  {
    if a in AFTER_IF then 58
    else INVALID
  }

  function CellsE4Rest(a: nat): (p: int)
    ensures RowFor(p, N_E4_REST)
  {
    if a == T_PLUS then 85
    else if a == T_MINUS then 86
    else if a in {T_AMP, T_SHR, T_SHL, T_SEMI, T_CLOSE, T_COMMA, T_CARET, T_BAR} then 87
    else INVALID
  }

  function CellsForStatement(a: nat): (p: int)
    ensures RowFor(p, N_FOR_STATEMENT)
  {
    if a == T_FOR then 61
    else INVALID
  }

  function CellsWhileStatement(a: nat): (p: int)
    ensures RowFor(p, N_WHILE_STATEMENT)
  {
    if a == T_WHILE then 59
    else INVALID
  }

  function CellsE2(a: nat): (p: int)
    ensures RowFor(p, N_E2)
  {
    if a in EXPRESSIONS then 77
    else INVALID
  }

  function CellsStatement(a: nat): (p: int)
    ensures RowFor(p, N_STATEMENT)
  {
    if a == T_IF then 3
    else if a == T_WHILE then 4
    else if a == T_DO then 5
    else if a == T_FOR then 6
    else if a in PLACES then 7
    else if a in CALLS then 8
    else if a == T_BREAK then 9
    else if a == T_CONTINUE then 10
    else INVALID
  }

  function CellsExpression(a: nat): (p: int)
    ensures RowFor(p, N_EXPRESSION)
  {
    if a in EXPRESSIONS then 71
    else INVALID
  }

  function CellsElsifStatementRest(a: nat): (p: int)
    ensures RowFor(p, N_ELSIF_STATEMENT_REST)
  {
    if a in AFTER_ELSIF then 55
    else INVALID
  }

  function CellsE12(a: nat): (p: int)
    ensures RowFor(p, N_E12)
  {
    if a == T_POI then 93
    else if a == T_DB then 94
    else if a == T_DD then 95
    else if a == T_DW then 96
    else if a == T_DQ then 97
    else if a == T_NEG then 98
    else if a == T_HI then 99
    else if a == T_LOW then 100
    else if a == T_NOT then 101
    else if a == T_CHECK_ADDRESS then 102
    else if a == T_STRLEN then 103
    else if a == T_WCSLEN then 104
    else if a == T_INTERLOCKED_INCREMENT then 105
    else if a == T_INTERLOCKED_DECREMENT then 106
    else if a == T_REFERENCE then 107
    else if a == T_PHYSICAL_TO_VIRTUAL then 108
    else if a == T_VIRTUAL_TO_PHYSICAL then 109
    else if a == T_ED then 110
    else if a == T_EB then 111
    else if a == T_EQ then 112
    else if a == T_INTERLOCKED_EXCHANGE then 113
    else if a == T_INTERLOCKED_EXCHANGE_ADD then 114
    else if a == T_INTERLOCKED_COMPARE_EXCHANGE then 115
    else if a == T_OPEN then 116
    else if a == T_REGISTER then 117
    else if a == T_LOCAL_ID then 118
    else if a == T_GLOBAL_ID then 119
    else if a == T_HEX then 120
    else if a == T_DECIMAL then 121
    else if a == T_OCTAL then 122
    else if a == T_BINARY then 123
    else if a == T_PSEUDO_REGISTER then 124
    else if a == T_MINUS then 125
    else if a == T_PLUS then 126
    else if a == T_TILDE then 127
    else if a == T_STAR then 128
    else if a == T_AMP then 129
    else INVALID
  }

  function CellsE3Rest(a: nat): (p: int)
    ensures RowFor(p, N_E3_REST)
  {
    if a == T_SHR then 81
    else if a == T_SHL then 82
    else if a in {T_AMP, T_SEMI, T_CLOSE, T_COMMA, T_CARET, T_BAR} then 83
    else INVALID
  }

  function CellsE1(a: nat): (p: int)
    ensures RowFor(p, N_E1)
  {
    if a in EXPRESSIONS then 74
    else INVALID
  }

  function CellsDoWhileStatement(a: nat): (p: int)
    ensures RowFor(p, N_DO_WHILE_STATEMENT)
  {
    if a == T_DO then 60
    else INVALID
  }

  function CellsElsifStatement(a: nat): (p: int)
    ensures RowFor(p, N_ELSIF_STATEMENT)
  {
    if a == T_ELSIF then 53
    else if a in AFTER_ELSIF then 54
    else INVALID
  }

  function CellsE3(a: nat): (p: int)
    ensures RowFor(p, N_E3)
  {
    if a in EXPRESSIONS then 80
    else INVALID
  }

  function CellsE1Rest(a: nat): (p: int)
    ensures RowFor(p, N_E1_REST)
  {
    if a == T_CARET then 75
    else if a in {T_SEMI, T_CLOSE, T_COMMA, T_BAR} then 76
    else INVALID
  }

  function CellsAssignmentStatementRest(a: nat): (p: int)
    ensures RowFor(p, N_ASSIGNMENT_STATEMENT_REST)
  {
    if a == T_INC then 12
    else if a == T_DEC then 13
    else if a == T_ASSIGN then 14
    else INVALID
  }

  function CellsSimpleAssignmentRest(a: nat): (p: int)
    ensures RowFor(p, N_SIMPLE_ASSIGNMENT_REST)
  {
    if a in {T_SEMI, T_CLOSE} then 64
    else INVALID
  }

  /** The entry for a nonterminal and a terminal. */
  function TableEntry(n: nat, a: nat): int {
    if n < 12 then FirstCells(n, a) else if n < 24 then MiddleCells(n, a) else LastCells(n, a)
  }

  function FirstCells(n: nat, a: nat): int {
    match n
    case 0 => CellsElseStatement(a)
    case 1 => CellsBooleanExpression(a)
    case 2 => CellsCallFuncStatement(a)
    case 3 => CellsLValue(a)
    case 4 => CellsE2Rest(a)
    case 5 => CellsIncDecRest(a)
    case 6 => CellsVa(a)
    case 7 => CellsS(a)
    case 8 => CellsE4(a)
    case 9 => CellsE5(a)
    case 10 => CellsE5Rest(a)
    case _ => CellsIncDec(a)
  }

  function MiddleCells(n: nat, a: nat): int {
    match n
    case 12 => CellsIfStatement(a)
    case 13 => CellsE0Rest(a)
    case 14 => CellsSimpleAssignment(a)
    case 15 => CellsAssignmentStatement(a)
    case 16 => CellsString(a)
    case 17 => CellsEndOfIf(a)
    case 18 => CellsE4Rest(a)
    case 19 => CellsForStatement(a)
    case 20 => CellsWhileStatement(a)
    case 21 => CellsE2(a)
    case 22 => CellsStatement(a)
    case _ => CellsExpression(a)
  }

  function LastCells(n: nat, a: nat): int {
    match n
    case 24 => CellsElsifStatementRest(a)
    case 25 => CellsE12(a)
    case 26 => CellsE3Rest(a)
    case 27 => CellsE1(a)
    case 28 => CellsDoWhileStatement(a)
    case 29 => CellsElsifStatement(a)
    case 30 => CellsE3(a)
    case 31 => CellsE1Rest(a)
    case 32 => CellsAssignmentStatementRest(a)
    case _ => CellsSimpleAssignmentRest(a)
  }

  /** The grammar with the shipped tables of both drivers. */
  function Statements(same: (nat, Lexeme) -> bool, extent: (nat, seq<Lexeme>) -> nat): Grammar {
    Grammar(seq(ROWS, p requires 0 <= p < ROWS => Row(LhsOf(p), RhsOf(p))),
            seq(NON_TERMINALS, n requires 0 <= n < NON_TERMINALS =>
              seq(TERMINALS, a requires 0 <= a < TERMINALS => TableEntry(n, a))),
            N_S, T_END, same, ShippedTables.Shipped(), extent)
  }

  lemma CellIsRow(n: nat, a: nat)
    requires n < NON_TERMINALS
    ensures RowFor(TableEntry(n, a), n)
  {
    hide RowFor;
    if n < 12 {
      FirstIsRow(n, a);
    } else if n < 24 {
      MiddleIsRow(n, a);
    } else {
      LastIsRow(n, a);
    }
  }

  lemma FirstIsRow(n: nat, a: nat)
    requires n < 12
    ensures RowFor(FirstCells(n, a), n)
  {
    hide RowFor, CellsElseStatement, CellsBooleanExpression, CellsCallFuncStatement, CellsLValue, CellsE2Rest,
      CellsIncDecRest, CellsVa, CellsS, CellsE4, CellsE5, CellsE5Rest, CellsIncDec;
  }

  lemma MiddleIsRow(n: nat, a: nat)
    requires 12 <= n < 24
    ensures RowFor(MiddleCells(n, a), n)
  {
    hide RowFor, CellsIfStatement, CellsE0Rest, CellsSimpleAssignment, CellsAssignmentStatement, CellsString,
      CellsEndOfIf, CellsE4Rest, CellsForStatement, CellsWhileStatement, CellsE2, CellsStatement, CellsExpression;
  }

  lemma LastIsRow(n: nat, a: nat)
    requires 24 <= n < NON_TERMINALS
    ensures RowFor(LastCells(n, a), n)
  {
    hide RowFor, CellsElsifStatementRest, CellsE12, CellsE3Rest, CellsE1, CellsDoWhileStatement,
      CellsElsifStatement, CellsE3, CellsE1Rest, CellsAssignmentStatementRest, CellsSimpleAssignmentRest;
  }

  /** Every entry of the shipped table is a row of its nonterminal. */
  lemma StatementsCoherent(same: (nat, Lexeme) -> bool, extent: (nat, seq<Lexeme>) -> nat)
    ensures Coherent(Statements(same, extent))
  {
    hide TableEntry, LhsOf, RhsOf, ShippedTables.Shipped;
    var g := Statements(same, extent);
    forall n, a | 0 <= n < |g.table| && 0 <= a < |g.table[n]| ensures CoherentEntry(g, n, g.table[n][a]) {
      CellIsRow(n, a);
    }
  }
}
