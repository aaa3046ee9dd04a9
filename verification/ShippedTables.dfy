/**
 The tables HyperDbg ships for boolean expressions, and the proof that they are
 coherent: the driver is sound with them.
 */
module ShippedTables {
  import opened Words
  import opened Script
  import opened Codegen
  import opened Lalr

  const STATES: nat := 180
  const TERMINALS: nat := 54
  const NON_TERMINALS: nat := 15

  // ---------------------------------------------------------------- symbols, in the order of their ids

  const N_E3 := NonTerminal(0)
  const N_BE := NonTerminal(1)
  const N_B3 := NonTerminal(2)
  const N_B6 := NonTerminal(3)
  const N_E12 := NonTerminal(4)
  const N_B1 := NonTerminal(5)
  const N_B4 := NonTerminal(6)
  const N_EXP := NonTerminal(7)
  const N_B5 := NonTerminal(8)
  const N_CMP := NonTerminal(9)
  const N_S := NonTerminal(10)
  const N_E4 := NonTerminal(11)
  const N_E5 := NonTerminal(12)
  const N_E10 := NonTerminal(13)
  const N_B2 := NonTerminal(14)

  const KEY_INTERLOCKED_COMPARE_EXCHANGE := Terminal(0)
  const PLUS := Terminal(1)
  const KEY_INTERLOCKED_EXCHANGE := Terminal(2)
  const KEY_ED := Terminal(3)
  const AMP := Terminal(4)
  const SHR := Terminal(5)
  const GT := Terminal(6)
  const KEY_DB := Terminal(7)
  const KEY_DD := Terminal(8)
  const KEY_NEG := Terminal(9)
  const KEY_HI := Terminal(10)
  const KEY_INTERLOCKED_INCREMENT := Terminal(11)
  const MINUS := Terminal(12)
  const SLASH := Terminal(13)
  const WORD_PSEUDO_REGISTER := Terminal(14)
  const END := Terminal(15)
  const KEY_STRLEN := Terminal(16)
  const KEY_POI := Terminal(17)
  const WORD_OCTAL := Terminal(18)
  const GE := Terminal(19)
  const OROR := Terminal(20)
  const KEY_WCSLEN := Terminal(21)
  const KEY_VIRTUAL_TO_PHYSICAL := Terminal(22)
  const ANDAND := Terminal(23)
  const KEY_DQ := Terminal(24)
  const KEY_INTERLOCKED_EXCHANGE_ADD := Terminal(25)
  const LE := Terminal(26)
  const KEY_NOT := Terminal(27)
  const WORD_BINARY := Terminal(28)
  const EQEQ := Terminal(29)
  const WORD_DECIMAL := Terminal(30)
  const KEY_INTERLOCKED_DECREMENT := Terminal(31)
  const WORD_LOCAL_ID := Terminal(32)
  const NE := Terminal(33)
  const KEY_PHYSICAL_TO_VIRTUAL := Terminal(34)
  const KEY_REFERENCE := Terminal(35)
  const SHL := Terminal(36)
  const KEY_LOW := Terminal(37)
  const WORD_HEX := Terminal(38)
  const KEY_EQ := Terminal(39)
  const OPEN := Terminal(40)
  const CLOSE := Terminal(41)
  const WORD_GLOBAL_ID := Terminal(42)
  const TILDE := Terminal(43)
  const KEY_EB := Terminal(44)
  const COMMA := Terminal(45)
  const CARET := Terminal(46)
  const BAR := Terminal(47)
  const PERCENT := Terminal(48)
  const LT := Terminal(49)
  const KEY_DW := Terminal(50)
  const KEY_CHECK_ADDRESS := Terminal(51)
  const WORD_REGISTER := Terminal(52)
  const STAR := Terminal(53)

  // ---------------------------------------------------------------- rules

  /** Symbols read, the last one outermost. */
  datatype History = Start | After(before: History, last: Sym)

  datatype Row = Row(lhs: Sym, rhs: History, effect: Effect)

  const RULES: nat := 69

  /** The rows of the grammar; built-ins that reach outside the model are foreign. */
  function RuleOf(p: nat): Row {
    if p < 10 then Rules0(p) else if p < 20 then Rules10(p) else if p < 30 then Rules20(p)
    else if p < 40 then Rules30(p) else if p < 50 then Rules40(p) else if p < 60 then Rules50(p) else Rules60(p)
  }

  function Rules0(p: nat): Row {
    match p
    case 0 => Row(N_S, After(Start, N_BE), Nothing)
    case 1 => Row(N_BE, After(Start, N_B1), Nothing)
    case 2 => Row(N_B1, After(After(After(Start, N_B1), OROR), N_B2), Fires(BinaryRule(Or)))
    case 3 => Row(N_B1, After(Start, N_B2), Nothing)
    case 4 => Row(N_B2, After(After(After(Start, N_B1), ANDAND), N_B3), Fires(BinaryRule(And)))
    case 5 => Row(N_B2, After(Start, N_B3), Nothing)
    case 6 => Row(N_B3, After(After(After(Start, N_B3), BAR), N_B4), Fires(BinaryRule(Or)))
    case 7 => Row(N_B3, After(Start, N_B4), Nothing)
    case 8 => Row(N_B4, After(After(After(Start, N_B4), CARET), N_B5), Fires(BinaryRule(Xor)))
    case _ => Row(N_B4, After(Start, N_B5), Nothing)
  }

  function Rules10(p: nat): Row {
    match p
    case 10 => Row(N_B5, After(After(After(Start, N_B5), AMP), N_B6), Fires(BinaryRule(And)))
    case 11 => Row(N_B5, After(Start, N_B6), Nothing)
    case 12 => Row(N_B6, After(Start, N_CMP), Nothing)
    case 13 => Row(N_CMP, After(After(After(Start, N_CMP), GT), N_EXP), Fires(BinaryRule(Gt)))
    case 14 => Row(N_CMP, After(After(After(Start, N_CMP), LT), N_EXP), Fires(BinaryRule(Lt)))
    case 15 => Row(N_CMP, After(After(After(Start, N_CMP), GE), N_EXP), Fires(BinaryRule(Egt)))
    case 16 => Row(N_CMP, After(After(After(Start, N_CMP), LE), N_EXP), Fires(BinaryRule(Elt)))
    case 17 => Row(N_CMP, After(After(After(Start, N_CMP), EQEQ), N_EXP), Fires(BinaryRule(Equal)))
    case 18 => Row(N_CMP, After(After(After(Start, N_CMP), NE), N_EXP), Fires(BinaryRule(Neq)))
    case _ => Row(N_CMP, After(Start, N_EXP), Nothing)
  }

  function Rules20(p: nat): Row {
    match p
    case 20 => Row(N_EXP, After(Start, N_E3), Nothing)
    case 21 => Row(N_E3, After(After(After(Start, N_E3), SHR), N_E4), Fires(BinaryRule(Asr)))
    case 22 => Row(N_E3, After(After(After(Start, N_E3), SHL), N_E4), Fires(BinaryRule(Asl)))
    case 23 => Row(N_E3, After(Start, N_E4), Nothing)
    case 24 => Row(N_E4, After(After(After(Start, N_E4), PLUS), N_E5), Fires(BinaryRule(Add)))
    case 25 => Row(N_E4, After(After(After(Start, N_E4), MINUS), N_E5), Fires(BinaryRule(Sub)))
    case 26 => Row(N_E4, After(Start, N_E5), Nothing)
    case 27 => Row(N_E5, After(After(After(Start, N_E5), SLASH), N_E10), Fires(BinaryRule(Div)))
    case 28 => Row(N_E5, After(After(After(Start, N_E5), PERCENT), N_E10), Fires(BinaryRule(Mod)))
    case _ => Row(N_E5, After(After(After(Start, N_E5), STAR), N_E10), Fires(BinaryRule(Mul)))
  }

  function Rules30(p: nat): Row {
    match p
    case 30 => Row(N_E5, After(Start, N_E10), Nothing)
    case 31 => Row(N_E10, After(Start, N_E12), Nothing)
    case 32 => Row(N_E10, After(After(Start, MINUS), N_E12), Fires(UnaryRule(Neg)))
    case 33 => Row(N_E10, After(After(Start, PLUS), N_E12), Nothing)
    case 34 => Row(N_E10, After(After(Start, TILDE), N_E12), Fires(UnaryRule(Not)))
    case 35 => Row(N_E10, After(After(Start, STAR), N_E12), Fires(ForeignRule))
    case 36 => Row(N_E10, After(After(Start, AMP), N_E12), Fires(ForeignRule))
    case 37 => Row(N_E12, After(After(After(After(Start, KEY_POI), OPEN), N_EXP), CLOSE), Fires(ForeignRule))
    case 38 => Row(N_E12, After(After(After(After(Start, KEY_DB), OPEN), N_EXP), CLOSE), Fires(ForeignRule))
    case _ => Row(N_E12, After(After(After(After(Start, KEY_DD), OPEN), N_EXP), CLOSE), Fires(ForeignRule))
  }

  function Rules40(p: nat): Row {
    match p
    case 40 => Row(N_E12, After(After(After(After(Start, KEY_DW), OPEN), N_EXP), CLOSE), Fires(ForeignRule))
    case 41 => Row(N_E12, After(After(After(After(Start, KEY_DQ), OPEN), N_EXP), CLOSE), Fires(ForeignRule))
    case 42 => Row(N_E12, After(After(After(After(Start, KEY_NEG), OPEN), N_EXP), CLOSE), Fires(UnaryRule(Neg)))
    case 43 => Row(N_E12, After(After(After(After(Start, KEY_HI), OPEN), N_EXP), CLOSE), Fires(ForeignRule))
    case 44 => Row(N_E12, After(After(After(After(Start, KEY_LOW), OPEN), N_EXP), CLOSE), Fires(ForeignRule))
    case 45 => Row(N_E12, After(After(After(After(Start, KEY_NOT), OPEN), N_EXP), CLOSE), Fires(UnaryRule(Not)))
    case 46 =>
      Row(N_E12, After(After(After(After(Start, KEY_CHECK_ADDRESS), OPEN), N_EXP), CLOSE),
          Fires(ForeignRule))
    case 47 => Row(N_E12, After(After(After(After(Start, KEY_STRLEN), OPEN), N_EXP), CLOSE), Fires(ForeignRule))
    case 48 => Row(N_E12, After(After(After(After(Start, KEY_WCSLEN), OPEN), N_EXP), CLOSE), Fires(ForeignRule))
    case _ =>
      Row(N_E12, After(After(After(After(Start, KEY_INTERLOCKED_INCREMENT), OPEN), N_EXP), CLOSE),
          Fires(ForeignRule))
  }

  function Rules50(p: nat): Row {
    match p
    case 50 =>
      Row(N_E12, After(After(After(After(Start, KEY_INTERLOCKED_DECREMENT), OPEN), N_EXP), CLOSE),
          Fires(ForeignRule))
    case 51 => Row(N_E12, After(After(After(After(Start, KEY_REFERENCE), OPEN), N_EXP), CLOSE), Fires(ForeignRule))
    case 52 =>
      Row(N_E12, After(After(After(After(Start, KEY_PHYSICAL_TO_VIRTUAL), OPEN), N_EXP), CLOSE),
          Fires(ForeignRule))
    case 53 =>
      Row(N_E12, After(After(After(After(Start, KEY_VIRTUAL_TO_PHYSICAL), OPEN), N_EXP), CLOSE),
          Fires(ForeignRule))
    case 54 =>
      Row(N_E12, After(After(After(After(After(After(Start, KEY_ED), OPEN), N_EXP), COMMA), N_EXP), CLOSE),
          Fires(ForeignRule))
    case 55 =>
      Row(N_E12, After(After(After(After(After(After(Start, KEY_EB), OPEN), N_EXP), COMMA), N_EXP), CLOSE),
          Fires(ForeignRule))
    case 56 =>
      Row(N_E12, After(After(After(After(After(After(Start, KEY_EQ), OPEN), N_EXP), COMMA), N_EXP), CLOSE),
          Fires(ForeignRule))
    case 57 =>
      Row(N_E12, After(After(After(After(After(After(Start, KEY_INTERLOCKED_EXCHANGE), OPEN), N_EXP), COMMA), N_EXP),
          CLOSE),
          Fires(ForeignRule))
    case 58 =>
      Row(N_E12, After(After(After(After(After(After(Start, KEY_INTERLOCKED_EXCHANGE_ADD), OPEN), N_EXP), COMMA),
          N_EXP), CLOSE),
          Fires(ForeignRule))
    case _ =>
      Row(N_E12, After(After(After(After(After(After(After(After(Start, KEY_INTERLOCKED_COMPARE_EXCHANGE), OPEN),
          N_EXP), COMMA), N_EXP), COMMA), N_EXP), CLOSE),
          Fires(ForeignRule))
  }

  function Rules60(p: nat): Row {
    match p
    case 60 => Row(N_E12, After(After(After(Start, OPEN), N_BE), CLOSE), Nothing)
    case 61 => Row(N_E12, After(Start, WORD_REGISTER), PushOperands)
    case 62 => Row(N_E12, After(Start, WORD_GLOBAL_ID), PushOperands)
    case 63 => Row(N_E12, After(Start, WORD_LOCAL_ID), PushOperands)
    case 64 => Row(N_E12, After(Start, WORD_HEX), PushOperands)
    case 65 => Row(N_E12, After(Start, WORD_DECIMAL), PushOperands)
    case 66 => Row(N_E12, After(Start, WORD_OCTAL), PushOperands)
    case 67 => Row(N_E12, After(Start, WORD_BINARY), PushOperands)
    case _ => Row(N_E12, After(Start, WORD_PSEUDO_REGISTER), PushOperands)
  }

  // ---------------------------------------------------------------- states

  /** What a state has just read: the longest part of a rule before the dot of one of its items. */
  function Past(s: nat): History {
    if s < 45 then PastBelow45(s) else if s < 90 then PastBelow90(s)
    else if s < 135 then PastBelow135(s) else PastBelow180(s)
  }

  function PastBelow45(s: nat): History {
    if s < 9 then Past0(s) else if s < 18 then Past9(s)
    else if s < 27 then Past18(s) else if s < 36 then Past27(s) else Past36(s)
  }

  function PastBelow90(s: nat): History {
    if s < 54 then Past45(s) else if s < 63 then Past54(s)
    else if s < 72 then Past63(s) else if s < 81 then Past72(s) else Past81(s)
  }

  function PastBelow135(s: nat): History {
    if s < 99 then Past90(s) else if s < 108 then Past99(s)
    else if s < 117 then Past108(s) else if s < 126 then Past117(s) else Past126(s)
  }

  function PastBelow180(s: nat): History {
    if s < 144 then Past135(s) else if s < 153 then Past144(s)
    else if s < 162 then Past153(s) else if s < 171 then Past162(s) else Past171(s)
  }

  function Past0(s: nat): History {
    match s
    case 0 => Start case 1 => After(Start, N_S) case 2 => After(Start, N_BE) case 3 => After(Start, N_B1)
    case 4 => After(Start, N_B2) case 5 => After(Start, N_B3) case 6 => After(Start, N_B4)
    case 7 => After(Start, N_B5) case _ => After(Start, N_B6)
  }

  function Past9(s: nat): History {
    match s
    case 9 => After(Start, N_CMP) case 10 => After(Start, N_EXP) case 11 => After(Start, N_E3)
    case 12 => After(Start, N_E4) case 13 => After(Start, N_E5) case 14 => After(Start, N_E10)
    case 15 => After(Start, N_E12) case 16 => After(Start, KEY_ED) case _ => After(Start, WORD_DECIMAL)
  }

  function Past18(s: nat): History {
    match s
    case 18 => After(Start, KEY_STRLEN) case 19 => After(Start, KEY_DD) case 20 => After(Start, KEY_EB)
    case 21 => After(Start, OPEN) case 22 => After(Start, KEY_LOW) case 23 => After(Start, WORD_LOCAL_ID)
    case 24 => After(Start, KEY_INTERLOCKED_INCREMENT) case 25 => After(Start, KEY_POI) case _ => After(Start, STAR)
  }

  function Past27(s: nat): History {
    match s
    case 27 => After(Start, KEY_INTERLOCKED_COMPARE_EXCHANGE) case 28 => After(Start, WORD_GLOBAL_ID)
    case 29 => After(Start, WORD_PSEUDO_REGISTER) case 30 => After(Start, KEY_HI) case 31 => After(Start, KEY_DW)
    case 32 => After(Start, PLUS) case 33 => After(Start, MINUS) case 34 => After(Start, WORD_REGISTER)
    case _ => After(Start, KEY_INTERLOCKED_EXCHANGE)
  }

  function Past36(s: nat): History {
    match s
    case 36 => After(Start, KEY_NOT) case 37 => After(Start, KEY_DQ) case 38 => After(Start, WORD_HEX)
    case 39 => After(Start, KEY_NEG) case 40 => After(Start, KEY_INTERLOCKED_EXCHANGE_ADD)
    case 41 => After(Start, KEY_VIRTUAL_TO_PHYSICAL) case 42 => After(Start, KEY_DB) case 43 => After(Start, TILDE)
    case _ => After(Start, KEY_CHECK_ADDRESS)
  }

  function Past45(s: nat): History {
    match s
    case 45 => After(Start, KEY_EQ) case 46 => After(Start, KEY_REFERENCE) case 47 => After(Start, WORD_BINARY)
    case 48 => After(Start, AMP) case 49 => After(Start, KEY_WCSLEN)
    case 50 => After(Start, KEY_INTERLOCKED_DECREMENT) case 51 => After(Start, KEY_PHYSICAL_TO_VIRTUAL)
    case 52 => After(Start, WORD_OCTAL) case _ => After(After(Start, N_B1), ANDAND)
  }

  function Past54(s: nat): History {
    match s
    case 54 => After(After(Start, N_B1), OROR) case 55 => After(After(Start, N_B3), BAR)
    case 56 => After(After(Start, N_B4), CARET) case 57 => After(After(Start, N_B5), AMP)
    case 58 => After(After(Start, N_CMP), LT) case 59 => After(After(Start, N_CMP), LE)
    case 60 => After(After(Start, N_CMP), EQEQ) case 61 => After(After(Start, N_CMP), GT)
    case _ => After(After(Start, N_CMP), NE)
  }

  function Past63(s: nat): History {
    match s
    case 63 => After(After(Start, N_CMP), GE) case 64 => After(After(Start, N_E3), SHR)
    case 65 => After(After(Start, N_E3), SHL) case 66 => After(After(Start, N_E4), PLUS)
    case 67 => After(After(Start, N_E4), MINUS) case 68 => After(After(Start, N_E5), SLASH)
    case 69 => After(After(Start, N_E5), STAR) case 70 => After(After(Start, N_E5), PERCENT)
    case _ => After(After(Start, KEY_ED), OPEN)
  }

  function Past72(s: nat): History {
    match s
    case 72 => After(After(Start, KEY_STRLEN), OPEN) case 73 => After(After(Start, KEY_DD), OPEN)
    case 74 => After(After(Start, KEY_EB), OPEN) case 75 => After(After(Start, OPEN), N_BE)
    case 76 => After(After(Start, KEY_LOW), OPEN) case 77 => After(After(Start, KEY_INTERLOCKED_INCREMENT), OPEN)
    case 78 => After(After(Start, KEY_POI), OPEN) case 79 => After(After(Start, STAR), N_E12)
    case _ => After(After(Start, KEY_INTERLOCKED_COMPARE_EXCHANGE), OPEN)
  }

  function Past81(s: nat): History {
    match s
    case 81 => After(After(Start, KEY_HI), OPEN) case 82 => After(After(Start, KEY_DW), OPEN)
    case 83 => After(After(Start, PLUS), N_E12) case 84 => After(After(Start, MINUS), N_E12)
    case 85 => After(After(Start, KEY_INTERLOCKED_EXCHANGE), OPEN) case 86 => After(After(Start, KEY_NOT), OPEN)
    case 87 => After(After(Start, KEY_DQ), OPEN) case 88 => After(After(Start, KEY_NEG), OPEN)
    case _ => After(After(Start, KEY_INTERLOCKED_EXCHANGE_ADD), OPEN)
  }

  function Past90(s: nat): History {
    match s
    case 90 => After(After(Start, KEY_VIRTUAL_TO_PHYSICAL), OPEN) case 91 => After(After(Start, KEY_DB), OPEN)
    case 92 => After(After(Start, TILDE), N_E12) case 93 => After(After(Start, KEY_CHECK_ADDRESS), OPEN)
    case 94 => After(After(Start, KEY_EQ), OPEN) case 95 => After(After(Start, KEY_REFERENCE), OPEN)
    case 96 => After(After(Start, AMP), N_E12) case 97 => After(After(Start, KEY_WCSLEN), OPEN)
    case _ => After(After(Start, KEY_INTERLOCKED_DECREMENT), OPEN)
  }

  function Past99(s: nat): History {
    match s
    case 99 => After(After(Start, KEY_PHYSICAL_TO_VIRTUAL), OPEN)
    case 100 => After(After(After(Start, N_B1), ANDAND), N_B3) case 101 => After(Start, N_B1)
    case 102 => After(After(After(Start, N_B1), OROR), N_B2) case 103 => After(After(After(Start, N_B3), BAR), N_B4)
    case 104 => After(After(After(Start, N_B4), CARET), N_B5)
    case 105 => After(After(After(Start, N_B5), AMP), N_B6) case 106 => After(After(After(Start, N_CMP), LT), N_EXP)
    case _ => After(After(After(Start, N_CMP), LE), N_EXP)
  }

  function Past108(s: nat): History {
    match s
    case 108 => After(After(After(Start, N_CMP), EQEQ), N_EXP)
    case 109 => After(After(After(Start, N_CMP), GT), N_EXP)
    case 110 => After(After(After(Start, N_CMP), NE), N_EXP)
    case 111 => After(After(After(Start, N_CMP), GE), N_EXP) case 112 => After(After(After(Start, N_E3), SHR), N_E4)
    case 113 => After(After(After(Start, N_E3), SHL), N_E4) case 114 => After(After(After(Start, N_E4), PLUS), N_E5)
    case 115 => After(After(After(Start, N_E4), MINUS), N_E5)
    case _ => After(After(After(Start, N_E5), SLASH), N_E10)
  }

  function Past117(s: nat): History {
    match s
    case 117 => After(After(After(Start, N_E5), STAR), N_E10)
    case 118 => After(After(After(Start, N_E5), PERCENT), N_E10)
    case 119 => After(After(After(Start, KEY_ED), OPEN), N_EXP)
    case 120 => After(After(After(Start, KEY_STRLEN), OPEN), N_EXP)
    case 121 => After(After(After(Start, KEY_DD), OPEN), N_EXP)
    case 122 => After(After(After(Start, KEY_EB), OPEN), N_EXP)
    case 123 => After(After(After(Start, OPEN), N_BE), CLOSE)
    case 124 => After(After(After(Start, KEY_LOW), OPEN), N_EXP)
    case _ => After(After(After(Start, KEY_INTERLOCKED_INCREMENT), OPEN), N_EXP)
  }

  function Past126(s: nat): History {
    match s
    case 126 => After(After(After(Start, KEY_POI), OPEN), N_EXP)
    case 127 => After(After(After(Start, KEY_INTERLOCKED_COMPARE_EXCHANGE), OPEN), N_EXP)
    case 128 => After(After(After(Start, KEY_HI), OPEN), N_EXP)
    case 129 => After(After(After(Start, KEY_DW), OPEN), N_EXP)
    case 130 => After(After(After(Start, KEY_INTERLOCKED_EXCHANGE), OPEN), N_EXP)
    case 131 => After(After(After(Start, KEY_NOT), OPEN), N_EXP)
    case 132 => After(After(After(Start, KEY_DQ), OPEN), N_EXP)
    case 133 => After(After(After(Start, KEY_NEG), OPEN), N_EXP)
    case _ => After(After(After(Start, KEY_INTERLOCKED_EXCHANGE_ADD), OPEN), N_EXP)
  }

  function Past135(s: nat): History {
    match s
    case 135 => After(After(After(Start, KEY_VIRTUAL_TO_PHYSICAL), OPEN), N_EXP)
    case 136 => After(After(After(Start, KEY_DB), OPEN), N_EXP)
    case 137 => After(After(After(Start, KEY_CHECK_ADDRESS), OPEN), N_EXP)
    case 138 => After(After(After(Start, KEY_EQ), OPEN), N_EXP)
    case 139 => After(After(After(Start, KEY_REFERENCE), OPEN), N_EXP)
    case 140 => After(After(After(Start, KEY_WCSLEN), OPEN), N_EXP)
    case 141 => After(After(After(Start, KEY_INTERLOCKED_DECREMENT), OPEN), N_EXP)
    case 142 => After(After(After(Start, KEY_PHYSICAL_TO_VIRTUAL), OPEN), N_EXP)
    case _ => After(After(After(After(Start, KEY_ED), OPEN), N_EXP), COMMA)
  }

  function Past144(s: nat): History {
    match s
    case 144 => After(After(After(After(Start, KEY_STRLEN), OPEN), N_EXP), CLOSE)
    case 145 => After(After(After(After(Start, KEY_DD), OPEN), N_EXP), CLOSE)
    case 146 => After(After(After(After(Start, KEY_EB), OPEN), N_EXP), COMMA)
    case 147 => After(After(After(After(Start, KEY_LOW), OPEN), N_EXP), CLOSE)
    case 148 => After(After(After(After(Start, KEY_INTERLOCKED_INCREMENT), OPEN), N_EXP), CLOSE)
    case 149 => After(After(After(After(Start, KEY_POI), OPEN), N_EXP), CLOSE)
    case 150 => After(After(After(After(Start, KEY_INTERLOCKED_COMPARE_EXCHANGE), OPEN), N_EXP), COMMA)
    case 151 => After(After(After(After(Start, KEY_HI), OPEN), N_EXP), CLOSE)
    case _ => After(After(After(After(Start, KEY_DW), OPEN), N_EXP), CLOSE)
  }

  function Past153(s: nat): History {
    match s
    case 153 => After(After(After(After(Start, KEY_INTERLOCKED_EXCHANGE), OPEN), N_EXP), COMMA)
    case 154 => After(After(After(After(Start, KEY_NOT), OPEN), N_EXP), CLOSE)
    case 155 => After(After(After(After(Start, KEY_DQ), OPEN), N_EXP), CLOSE)
    case 156 => After(After(After(After(Start, KEY_NEG), OPEN), N_EXP), CLOSE)
    case 157 => After(After(After(After(Start, KEY_INTERLOCKED_EXCHANGE_ADD), OPEN), N_EXP), COMMA)
    case 158 => After(After(After(After(Start, KEY_VIRTUAL_TO_PHYSICAL), OPEN), N_EXP), CLOSE)
    case 159 => After(After(After(After(Start, KEY_DB), OPEN), N_EXP), CLOSE)
    case 160 => After(After(After(After(Start, KEY_CHECK_ADDRESS), OPEN), N_EXP), CLOSE)
    case _ => After(After(After(After(Start, KEY_EQ), OPEN), N_EXP), COMMA)
  }

  function Past162(s: nat): History {
    match s
    case 162 => After(After(After(After(Start, KEY_REFERENCE), OPEN), N_EXP), CLOSE)
    case 163 => After(After(After(After(Start, KEY_WCSLEN), OPEN), N_EXP), CLOSE)
    case 164 => After(After(After(After(Start, KEY_INTERLOCKED_DECREMENT), OPEN), N_EXP), CLOSE)
    case 165 => After(After(After(After(Start, KEY_PHYSICAL_TO_VIRTUAL), OPEN), N_EXP), CLOSE)
    case 166 => After(After(After(After(After(Start, KEY_ED), OPEN), N_EXP), COMMA), N_EXP)
    case 167 => After(After(After(After(After(Start, KEY_EB), OPEN), N_EXP), COMMA), N_EXP)
    case 168 => After(After(After(After(After(Start, KEY_INTERLOCKED_COMPARE_EXCHANGE), OPEN), N_EXP), COMMA), N_EXP)
    case 169 => After(After(After(After(After(Start, KEY_INTERLOCKED_EXCHANGE), OPEN), N_EXP), COMMA), N_EXP)
    case _ => After(After(After(After(After(Start, KEY_INTERLOCKED_EXCHANGE_ADD), OPEN), N_EXP), COMMA), N_EXP)
  }

  function Past171(s: nat): History {
    match s
    case 171 => After(After(After(After(After(Start, KEY_EQ), OPEN), N_EXP), COMMA), N_EXP)
    case 172 => After(After(After(After(After(After(Start, KEY_ED), OPEN), N_EXP), COMMA), N_EXP), CLOSE)
    case 173 => After(After(After(After(After(After(Start, KEY_EB), OPEN), N_EXP), COMMA), N_EXP), CLOSE)
    case 174 => After(After(After(After(After(After(Start, KEY_INTERLOCKED_COMPARE_EXCHANGE), OPEN), N_EXP), COMMA),
        N_EXP), COMMA)
    case 175 => After(After(After(After(After(After(Start, KEY_INTERLOCKED_EXCHANGE), OPEN), N_EXP), COMMA), N_EXP),
        CLOSE)
    case 176 => After(After(After(After(After(After(Start, KEY_INTERLOCKED_EXCHANGE_ADD), OPEN), N_EXP), COMMA),
        N_EXP), CLOSE)
    case 177 => After(After(After(After(After(After(Start, KEY_EQ), OPEN), N_EXP), COMMA), N_EXP), CLOSE)
    case 178 => After(After(After(After(After(After(After(Start, KEY_INTERLOCKED_COMPARE_EXCHANGE), OPEN), N_EXP),
        COMMA), N_EXP), COMMA), N_EXP)
    case _ => After(After(After(After(After(After(After(After(Start, KEY_INTERLOCKED_COMPARE_EXCHANGE), OPEN), N_EXP),
        COMMA), N_EXP), COMMA), N_EXP), CLOSE)
  }

  /** `short` is how `long` ends. */
  predicate Ends(short: History, long: History) {
    short.Start? || (long.After? && short.last == long.last && Ends(short.before, long.before))
  }

  /** A shift or goto; what the new state has read follows from what the old one had. */
  datatype Edge = Edge(from: nat, symbol: Sym, to: nat)

  predicate Sound(from: nat, symbol: Sym, to: nat) {
    from < STATES && 1 < to < STATES && symbol != END && Ends(Past(to), After(Past(from), symbol))
  }

  type SoundEdge = e: Edge | Sound(e.from, e.symbol, e.to) witness Edge(0, N_BE, 2)

  lemma {:induction false} EndsItself(h: History)
    ensures Ends(h, h)
  {
    if h.After? {
      EndsItself(h.before);
    }
  }

  /** One symbol further in the same rule. */
  function Go(from: nat, symbol: Sym, to: nat): SoundEdge
    requires from < STATES && 1 < to < STATES && symbol != END && Past(to) == After(Past(from), symbol)
  {
    EndsItself(Past(to));
    Edge(from, symbol, to)
  }

  /** Into a rule that has read less than the state before. */
  function Turn(from: nat, symbol: Sym, to: nat): SoundEdge
    requires Sound(from, symbol, to)
  {
    Edge(from, symbol, to)
  }

  /** The shifts other than those that begin an operand. */
  const OWN_SHIFTS: seq<SoundEdge> := SHIFTS_1 + SHIFTS_2 + SHIFTS_3 + SHIFTS_4 + SHIFTS_5 + SHIFTS_6 + SHIFTS_7
      + SHIFTS_8 + SHIFTS_9 + SHIFTS_10 + SHIFTS_11 + SHIFTS_12 + SHIFTS_13 + SHIFTS_14 + SHIFTS_15

  const SHIFTS_1: seq<SoundEdge> := [
    Go(3, OROR, 54), Go(3, ANDAND, 53), Go(5, BAR, 55), Go(6, CARET, 56), Go(7, AMP, 57), Go(9, GT, 61)
  ]

  const SHIFTS_2: seq<SoundEdge> := [
    Go(9, GE, 63), Go(9, LE, 59), Go(9, EQEQ, 60), Go(9, NE, 62), Go(9, LT, 58), Go(11, SHR, 64)
  ]

  const SHIFTS_3: seq<SoundEdge> := [
    Go(11, SHL, 65), Go(12, PLUS, 66), Go(12, MINUS, 67), Go(13, SLASH, 68), Go(13, PERCENT, 70), Go(13, STAR, 69)
  ]

  const SHIFTS_4: seq<SoundEdge> := [
    Go(16, OPEN, 71), Go(18, OPEN, 72), Go(19, OPEN, 73), Go(20, OPEN, 74), Go(22, OPEN, 76), Go(24, OPEN, 77)
  ]

  const SHIFTS_5: seq<SoundEdge> := [
    Go(25, OPEN, 78), Go(27, OPEN, 80), Go(30, OPEN, 81), Go(31, OPEN, 82), Go(35, OPEN, 85), Go(36, OPEN, 86)
  ]

  const SHIFTS_6: seq<SoundEdge> := [
    Go(37, OPEN, 87), Go(39, OPEN, 88), Go(40, OPEN, 89), Go(41, OPEN, 90), Go(42, OPEN, 91), Go(44, OPEN, 93)
  ]

  const SHIFTS_7: seq<SoundEdge> := [
    Go(45, OPEN, 94), Go(46, OPEN, 95), Go(49, OPEN, 97), Go(50, OPEN, 98), Go(51, OPEN, 99), Go(75, CLOSE, 123)
  ]

  const SHIFTS_8: seq<SoundEdge> := [
    Turn(100, BAR, 55), Go(101, OROR, 54), Go(101, ANDAND, 53), Turn(103, CARET, 56), Turn(104, AMP, 57),
    Turn(112, PLUS, 66)
  ]

  const SHIFTS_9: seq<SoundEdge> := [
    Turn(112, MINUS, 67), Turn(113, PLUS, 66), Turn(113, MINUS, 67), Turn(114, SLASH, 68), Turn(114, PERCENT, 70),
    Turn(114, STAR, 69)
  ]

  const SHIFTS_10: seq<SoundEdge> := [
    Turn(115, SLASH, 68), Turn(115, PERCENT, 70), Turn(115, STAR, 69), Go(119, COMMA, 143), Go(120, CLOSE, 144),
    Go(121, CLOSE, 145)
  ]

  const SHIFTS_11: seq<SoundEdge> := [
    Go(122, COMMA, 146), Go(124, CLOSE, 147), Go(125, CLOSE, 148), Go(126, CLOSE, 149), Go(127, COMMA, 150),
    Go(128, CLOSE, 151)
  ]

  const SHIFTS_12: seq<SoundEdge> := [
    Go(129, CLOSE, 152), Go(130, COMMA, 153), Go(131, CLOSE, 154), Go(132, CLOSE, 155), Go(133, CLOSE, 156),
    Go(134, COMMA, 157)
  ]

  const SHIFTS_13: seq<SoundEdge> := [
    Go(135, CLOSE, 158), Go(136, CLOSE, 159), Go(137, CLOSE, 160), Go(138, COMMA, 161), Go(139, CLOSE, 162),
    Go(140, CLOSE, 163)
  ]

  const SHIFTS_14: seq<SoundEdge> := [
    Go(141, CLOSE, 164), Go(142, CLOSE, 165), Go(166, CLOSE, 172), Go(167, CLOSE, 173), Go(168, COMMA, 174),
    Go(169, CLOSE, 175)
  ]

  const SHIFTS_15: seq<SoundEdge> := [
    Go(170, CLOSE, 176), Go(171, CLOSE, 177), Go(178, CLOSE, 179)
  ]

  /** The gotos that depend on the state; below the topmost of them, all states go on alike. */
  const OWN_GOTOS: seq<SoundEdge> := GOTOS_1 + GOTOS_2 + GOTOS_3 + GOTOS_4 + GOTOS_5 + GOTOS_6 + GOTOS_7 + GOTOS_8
      + GOTOS_9 + GOTOS_10

  const GOTOS_1: seq<SoundEdge> := [
    Go(0, N_BE, 2), Go(21, N_BE, 75), Go(26, N_E12, 79), Go(32, N_E12, 83), Go(33, N_E12, 84), Go(43, N_E12, 92)
  ]

  const GOTOS_2: seq<SoundEdge> := [
    Go(48, N_E12, 96), Go(53, N_B3, 100), Turn(54, N_B1, 101), Go(54, N_B2, 102), Go(55, N_B4, 103),
    Go(56, N_B5, 104)
  ]

  const GOTOS_3: seq<SoundEdge> := [
    Go(57, N_B6, 105), Go(58, N_EXP, 106), Go(59, N_EXP, 107), Go(60, N_EXP, 108), Go(61, N_EXP, 109),
    Go(62, N_EXP, 110)
  ]

  const GOTOS_4: seq<SoundEdge> := [
    Go(63, N_EXP, 111), Go(64, N_E4, 112), Go(65, N_E4, 113), Go(66, N_E5, 114), Go(67, N_E5, 115),
    Go(68, N_E10, 116)
  ]

  const GOTOS_5: seq<SoundEdge> := [
    Go(69, N_E10, 117), Go(70, N_E10, 118), Go(71, N_EXP, 119), Go(72, N_EXP, 120), Go(73, N_EXP, 121),
    Go(74, N_EXP, 122)
  ]

  const GOTOS_6: seq<SoundEdge> := [
    Go(76, N_EXP, 124), Go(77, N_EXP, 125), Go(78, N_EXP, 126), Go(80, N_EXP, 127), Go(81, N_EXP, 128),
    Go(82, N_EXP, 129)
  ]

  const GOTOS_7: seq<SoundEdge> := [
    Go(85, N_EXP, 130), Go(86, N_EXP, 131), Go(87, N_EXP, 132), Go(88, N_EXP, 133), Go(89, N_EXP, 134),
    Go(90, N_EXP, 135)
  ]

  const GOTOS_8: seq<SoundEdge> := [
    Go(91, N_EXP, 136), Go(93, N_EXP, 137), Go(94, N_EXP, 138), Go(95, N_EXP, 139), Go(97, N_EXP, 140),
    Go(98, N_EXP, 141)
  ]

  const GOTOS_9: seq<SoundEdge> := [
    Go(99, N_EXP, 142), Go(143, N_EXP, 166), Go(146, N_EXP, 167), Go(150, N_EXP, 168), Go(153, N_EXP, 169),
    Go(157, N_EXP, 170)
  ]

  const GOTOS_10: seq<SoundEdge> := [
    Go(161, N_EXP, 171), Go(174, N_EXP, 178)
  ]

  /** A reduction; the state has read the right-hand side of the rule. */
  datatype Reduction = Reduction(state: nat, rule: nat, lookahead: nat)

  predicate Complete(state: nat, rule: nat) {
    rule < RULES && Ends(RuleOf(rule).rhs, Past(state))
  }

  type SoundReduction = r: Reduction | Complete(r.state, r.rule) witness Reduction(2, 0, 0)

  function By(state: nat, rule: nat, lookahead: nat): SoundReduction
    requires rule < RULES && Past(state) == RuleOf(rule).rhs
  {
    EndsItself(Past(state));
    Reduction(state, rule, lookahead)
  }

  /** By a rule shorter than what the state has read. */
  function ByTail(state: nat, rule: nat, lookahead: nat): SoundReduction
    requires Complete(state, rule)
  {
    Reduction(state, rule, lookahead)
  }

  const REDUCTIONS: seq<SoundReduction> := REDUCTIONS_1 + REDUCTIONS_2 + REDUCTIONS_3 + REDUCTIONS_4 + REDUCTIONS_5
      + REDUCTIONS_6 + REDUCTIONS_7 + REDUCTIONS_8 + REDUCTIONS_9 + REDUCTIONS_10

  const REDUCTIONS_1: seq<SoundReduction> := [
    By(2, 0, 0), By(3, 1, 1), By(4, 3, 2), By(5, 5, 2), By(6, 7, 3), By(7, 9, 4), By(8, 11, 5)
  ]

  const REDUCTIONS_2: seq<SoundReduction> := [
    By(9, 12, 5), By(10, 19, 6), By(11, 20, 7), By(12, 23, 8), By(13, 26, 9), By(14, 30, 10), By(15, 31, 10)
  ]

  const REDUCTIONS_3: seq<SoundReduction> := [
    By(17, 65, 10), By(23, 63, 10), By(28, 62, 10), By(29, 68, 10), By(34, 61, 10), By(38, 64, 10), By(47, 67, 10)
  ]

  const REDUCTIONS_4: seq<SoundReduction> := [
    By(52, 66, 10), By(79, 35, 10), By(83, 33, 10), By(84, 32, 10), By(92, 34, 10), By(96, 36, 10), By(100, 4, 2)
  ]

  const REDUCTIONS_5: seq<SoundReduction> := [
    By(102, 2, 1), ByTail(102, 3, 11), By(103, 6, 3), By(104, 8, 4), By(105, 10, 5), By(106, 14, 6), By(107, 16, 6)
  ]

  const REDUCTIONS_6: seq<SoundReduction> := [
    By(108, 17, 6), By(109, 13, 6), By(110, 18, 6), By(111, 15, 6), By(112, 21, 8), By(113, 22, 8), By(114, 24, 9)
  ]

  const REDUCTIONS_7: seq<SoundReduction> := [
    By(115, 25, 9), By(116, 27, 10), By(117, 29, 10), By(118, 28, 10), By(123, 60, 10), By(144, 47, 10),
    By(145, 39, 10)
  ]

  const REDUCTIONS_8: seq<SoundReduction> := [
    By(147, 44, 10), By(148, 49, 10), By(149, 37, 10), By(151, 43, 10), By(152, 40, 10), By(154, 45, 10),
    By(155, 41, 10)
  ]

  const REDUCTIONS_9: seq<SoundReduction> := [
    By(156, 42, 10), By(158, 53, 10), By(159, 38, 10), By(160, 46, 10), By(162, 51, 10), By(163, 48, 10),
    By(164, 50, 10)
  ]

  const REDUCTIONS_10: seq<SoundReduction> := [
    By(165, 52, 10), By(172, 54, 10), By(173, 55, 10), By(175, 57, 10), By(176, 58, 10), By(177, 56, 10),
    By(179, 59, 10)
  ]

  /** The terminals on which a reduction is made. */
  function Lookaheads(k: nat): seq<Sym> {
    match k
    case 0 => [END]
    case 1 => [END, CLOSE]
    case 2 => [END, OROR, ANDAND, CLOSE]
    case 3 => [END, OROR, ANDAND, CLOSE, BAR]
    case 4 => [END, OROR, ANDAND, CLOSE, CARET, BAR]
    case 5 => [AMP, END, OROR, ANDAND, CLOSE, CARET, BAR]
    case 6 => [AMP, GT, END, GE, OROR, ANDAND, LE, EQEQ, NE, CLOSE, CARET, BAR, LT]
    case 7 => [AMP, GT, END, GE, OROR, ANDAND, LE, EQEQ, NE, CLOSE, COMMA, CARET, BAR, LT]
    case 8 => [AMP, SHR, GT, END, GE, OROR, ANDAND, LE, EQEQ, NE, SHL, CLOSE, COMMA, CARET, BAR, LT]
    case 9 => [PLUS, AMP, SHR, GT, MINUS, END, GE, OROR, ANDAND, LE, EQEQ, NE, SHL, CLOSE, COMMA, CARET, BAR, LT]
    case 10 => [
      PLUS, AMP, SHR, GT, MINUS, SLASH, END, GE, OROR, ANDAND, LE, EQEQ, NE, SHL, CLOSE, COMMA, CARET, BAR,
      PERCENT, LT, STAR]
    case _ => [OROR, ANDAND]
  }

  /** The states in which an operand may begin. */
  const OPERAND_STATES: set<nat> := {
    0, 21, 53, 54, 55, 56, 57, 58, 59, 60, 61, 62, 63, 64, 65, 66, 67, 68, 69, 70, 71, 72, 73, 74, 76, 77, 78, 80,
    81, 82, 85, 86, 87, 88, 89, 90, 91, 93, 94, 95, 97, 98, 99, 143, 146, 150, 153, 157, 161, 174
  }

  /** The states after a prefix operator, where no second one may follow. */
  const PREFIX_STATES: set<nat> := {26, 32, 33, 43, 48}

  /** Where the first token of an operand leads, whatever the state; 0 for other tokens. */
  function OperandTarget(a: nat): nat {
    match a
    case 0 => 27 case 1 => 32 case 2 => 35 case 3 => 16 case 4 => 48 case 7 => 42 case 8 => 19 case 9 => 39
    case 10 => 30 case 11 => 24 case 12 => 33 case 14 => 29 case 16 => 18 case 17 => 25 case 18 => 52
    case 21 => 49 case 22 => 41 case 24 => 37 case 25 => 40 case 27 => 36 case 28 => 47 case 30 => 17
    case 31 => 50 case 32 => 23 case 34 => 51 case 35 => 46 case 37 => 22 case 38 => 38 case 39 => 45
    case 40 => 21 case 42 => 28 case 43 => 43 case 44 => 20 case 50 => 31 case 51 => 44 case 52 => 34
    case 53 => 26
    case _ => 0
  }

  predicate PrefixOperator(a: nat) {
    a in {PLUS.id, AMP.id, MINUS.id, TILDE.id, STAR.id}
  }

  /** The order in which the operator levels of the grammar contain each other. */
  function Rank(n: nat): nat {
    match n
    case 0 => 10 case 1 => 1 case 2 => 4 case 3 => 7 case 4 => 14 case 5 => 2 case 6 => 5 case 7 => 9
    case 8 => 6 case 9 => 8 case 10 => 0 case 11 => 11 case 12 => 12 case 13 => 13 case _ => 3
  }

  function CommonTarget(n: nat): nat {
    match n
    case 0 => 11 case 2 => 5 case 3 => 8 case 4 => 15 case 5 => 3 case 6 => 6 case 7 => 10 case 8 => 7
    case 9 => 9 case 11 => 12 case 12 => 13 case 13 => 14 case 14 => 4 case _ => 0
  }

  // ---------------------------------------------------------------- the tables

  function Find(es: seq<SoundEdge>, s: nat, x: Sym): (to: nat)
    ensures to != 0 ==> Sound(s, x, to)
  {
    if es == [] then 0
    else if es[0].from == s && es[0].symbol == x then es[0].to
    else Find(es[1..], s, x)
  }

  function FindReduction(rs: seq<SoundReduction>, s: nat, a: nat): (p: int)
    ensures p >= 0 ==> Complete(s, p)
  {
    if rs == [] then -1
    else if rs[0].state == s && Terminal(a) in Lookaheads(rs[0].lookahead) then rs[0].rule
    else FindReduction(rs[1..], s, a)
  }

  predicate BeginsOperand(s: nat, a: nat) {
    OperandTarget(a) != 0 && (s in OPERAND_STATES || (s in PREFIX_STATES && !PrefixOperator(a)))
  }

  function ActionEntry(s: nat, a: nat): int {
    if s == 1 then if a == END.id then LALR_ACCEPT else INVALID
    else
      var own := Find(OWN_SHIFTS, s, Terminal(a));
      if own != 0 then own
      else if BeginsOperand(s, a) then OperandTarget(a)
      else
        var p := FindReduction(REDUCTIONS, s, a);
        if p < 0 then INVALID else -p - 1
  }

  /** A level of the grammar inside one the state waits for. */
  predicate Inside(es: seq<SoundEdge>, s: nat, n: nat) {
    exists e :: e in es && e.from == s && Rank(e.symbol.id) < Rank(n)
  }

  function GotoEntry(s: nat, n: nat): int {
    if s == 0 && n == N_S.id then 1
    else
      var own := Find(OWN_GOTOS, s, NonTerminal(n));
      if own != 0 then own
      else if Inside(OWN_GOTOS, s, n) && CommonTarget(n) != 0 then CommonTarget(n)
      else INVALID
  }

  function Spelled(h: History): seq<Sym> {
    if h.Start? then [] else Spelled(h.before) + [h.last]
  }

  function ProductionOf(p: nat): Production {
    Production(RuleOf(p).lhs.id, Spelled(RuleOf(p).rhs), RuleOf(p).effect)
  }

  function NoteOf(s: nat): Note {
    Note(Spelled(Past(s)), s <= 1)
  }

  function Shipped(): Tables {
    Tables(seq(RULES, p requires 0 <= p < RULES => ProductionOf(p)),
           seq(STATES, s requires 0 <= s < STATES => seq(TERMINALS,
               a requires 0 <= a < TERMINALS => ActionEntry(s, a))),
           seq(STATES, s requires 0 <= s < STATES => seq(NON_TERMINALS,
               n requires 0 <= n < NON_TERMINALS => GotoEntry(s, n))),
           TERMINALS, NON_TERMINALS, N_S.id, END.id)
  }

  function Notes(): seq<Note> {
    seq(STATES, s requires 0 <= s < STATES => NoteOf(s))
  }

  // ---------------------------------------------------------------- coherence

  lemma {:induction false} EndsSpelled(short: History, long: History)
    requires Ends(short, long)
    ensures Suffix(Spelled(short), Spelled(long))
    decreases short
  {
    if short.After? {
      EndsSpelled(short.before, long.before);
    }
  }

  lemma EdgeLeads(from: nat, x: Sym, to: nat)
    requires Sound(from, x, to)
    ensures Leads(NoteOf(from), x, NoteOf(to))
  {
    hide Past, Ends;
    EndsSpelled(Past(to), After(Past(from), x));
  }

  lemma OperandOk(a: nat)
    ensures OperandTarget(a) != 0 ==>
            1 < OperandTarget(a) < STATES && a != END.id && Past(OperandTarget(a)) == After(Start, Terminal(a))
  {
  }

  lemma CommonOk(n: nat)
    ensures CommonTarget(n) != 0 ==>
            1 < CommonTarget(n) < STATES && Past(CommonTarget(n)) == After(Start, NonTerminal(n))
  {
  }

  lemma LhsOk(p: nat)
    ensures RuleOf(p).lhs.id < NON_TERMINALS
  {
  }

  /** A state that has read just one symbol can follow any state. */
  lemma OneLeads(from: nat, x: Sym, to: nat)
    requires to > 1 && Past(to) == After(Start, x)
    ensures Leads(NoteOf(from), x, NoteOf(to))
  {
    hide Past;
    assert Spelled(Past(to)) == [x];
  }

  lemma ShiftOk(s: nat, a: nat, to: nat)
    requires s < STATES && 1 < to < STATES && a != END.id && Leads(NoteOf(s), Terminal(a), NoteOf(to))
    ensures CoherentEntry(Shipped(), Notes(), s, a, to)
  {
    hide Leads, NoteOf, ActionEntry, GotoEntry, ProductionOf;
  }

  lemma ReduceOk(s: nat, a: nat, p: nat)
    requires s < STATES && Complete(s, p)
    ensures CoherentEntry(Shipped(), Notes(), s, a, -1 - p)
  {
    hide ActionEntry, GotoEntry, Past, RuleOf, Ends, Spelled, Suffix;
    EndsSpelled(RuleOf(p).rhs, Past(s));
  }

  lemma AcceptOk()
    ensures CoherentEntry(Shipped(), Notes(), 1, END.id, LALR_ACCEPT)
  {
    hide ActionEntry, GotoEntry, ProductionOf, Past, Spelled;
    StartRead();
  }

  lemma ActionOk(s: nat, a: nat)
    requires s < STATES && a < TERMINALS
    ensures CoherentEntry(Shipped(), Notes(), s, a, ActionEntry(s, a))
  {
    hide Past, RuleOf, OperandTarget, Lookaheads, PrefixOperator, Leads, NoteOf, Find, FindReduction, GotoEntry,
      ProductionOf, Shipped, Notes, Sound, Complete, CoherentEntry;
    var own := Find(OWN_SHIFTS, s, Terminal(a));
    if s == 1 {
      AcceptOk();
      InvalidOk(s, a);
    } else if own != 0 {
      SoundTo(s, Terminal(a), own);
      EdgeLeads(s, Terminal(a), own);
      ShiftOk(s, a, own);
    } else if BeginsOperand(s, a) {
      OperandOk(a);
      OneLeads(s, Terminal(a), OperandTarget(a));
      ShiftOk(s, a, OperandTarget(a));
    } else {
      var p := FindReduction(REDUCTIONS, s, a);
      InvalidOk(s, a);
      if p >= 0 {
        ReduceOk(s, a, p);
      }
    }
  }

  lemma SoundTo(from: nat, x: Sym, to: nat)
    requires Sound(from, x, to)
    ensures 1 < to < STATES && x != END
  {
    hide Past;
  }

  lemma InvalidOk(s: nat, a: nat)
    requires s < STATES
    ensures CoherentEntry(Shipped(), Notes(), s, a, INVALID)
  {
  }

  lemma StartRead()
    ensures Spelled(Past(0)) == [] && Spelled(Past(1)) == [N_S]
  {
    assert Past(0) == Start && Past(1) == After(Start, N_S);
  }

  lemma GotoOk(s: nat, n: nat)
    requires s < STATES && n < NON_TERMINALS && GotoEntry(s, n) != INVALID
    ensures 0 <= GotoEntry(s, n) < STATES && Leads(NoteOf(s), NonTerminal(n), NoteOf(GotoEntry(s, n)))
  {
    hide Past, Spelled, Find, CommonTarget, Inside;
    var own := Find(OWN_GOTOS, s, NonTerminal(n));
    if s == 0 && n == N_S.id {
      StartRead();
    } else if own != 0 {
      EdgeLeads(s, NonTerminal(n), own);
    } else {
      CommonOk(n);
      OneLeads(s, NonTerminal(n), CommonTarget(n));
    }
  }

  /** The shipped tables are coherent with the shipped rules. */
  lemma ShippedCoherent()
    ensures Coherent(Shipped(), Notes())
  {
    hide CoherentEntry, ActionEntry, GotoEntry, NoteOf, RuleOf, Leads, Spelled, Past;
    var t := Shipped();
    StartIs();
    forall p | p in t.productions ensures p.lhs < t.nonTerminals {
      var i :| 0 <= i < RULES && p == ProductionOf(i);
      LhsOk(i);
    }
    forall s, a | 0 <= s < STATES && 0 <= a < TERMINALS
      ensures CoherentEntry(t, Notes(), s, a, t.action[s][a])
    {
      ActionOk(s, a);
    }
    forall s, n | 0 <= s < STATES && 0 <= n < NON_TERMINALS && t.goto[s][n] != INVALID
      ensures 0 <= t.goto[s][n] < STATES && Leads(Notes()[s], NonTerminal(n), Notes()[t.goto[s][n]])
    {
      GotoOk(s, n);
    }
  }

  lemma StartIs()
    ensures NoteOf(0) == Note([], true)
  {
    StartRead();
  }
}
