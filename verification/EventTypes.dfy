/** The names of event types: canonical, enum and class names, and everything else the normaliser accepts. */
module EventTypes {
  import opened Basics
  import opened Payments

  function TypeName(k: PaymentEventType): string {
    match k
    case PAYMENT_CREATED => "payment.created"
    case PAYMENT_PROCESSED => "payment.processed"
    case PAYMENT_SUCCEEDED => "payment.succeeded"
    case PAYMENT_FAILED => "payment.failed"
    case PAYMENT_CANCELLED => "payment.cancelled"
    case PAYMENT_REFUNDED => "payment.refunded"
  }

  function Capitals(k: PaymentEventType): string {
    match k
    case PAYMENT_CREATED => "CREATED"
    case PAYMENT_PROCESSED => "PROCESSED"
    case PAYMENT_SUCCEEDED => "SUCCEEDED"
    case PAYMENT_FAILED => "FAILED"
    case PAYMENT_CANCELLED => "CANCELLED"
    case PAYMENT_REFUNDED => "REFUNDED"
  }

  function EnumName(k: PaymentEventType): string {
    "PAYMENT" + ("_" + Capitals(k))
  }

  function Registered(s: string): Option<PaymentEventType> {
    if s == TypeName(PAYMENT_CREATED) then Some(PAYMENT_CREATED)
    else if s == TypeName(PAYMENT_PROCESSED) then Some(PAYMENT_PROCESSED)
    else if s == TypeName(PAYMENT_SUCCEEDED) then Some(PAYMENT_SUCCEEDED)
    else if s == TypeName(PAYMENT_FAILED) then Some(PAYMENT_FAILED)
    else if s == TypeName(PAYMENT_CANCELLED) then Some(PAYMENT_CANCELLED)
    else if s == TypeName(PAYMENT_REFUNDED) then Some(PAYMENT_REFUNDED)
    else None
  }

  function Member(s: string): Option<PaymentEventType> {
    if s == EnumName(PAYMENT_CREATED) then Some(PAYMENT_CREATED)
    else if s == EnumName(PAYMENT_PROCESSED) then Some(PAYMENT_PROCESSED)
    else if s == EnumName(PAYMENT_SUCCEEDED) then Some(PAYMENT_SUCCEEDED)
    else if s == EnumName(PAYMENT_FAILED) then Some(PAYMENT_FAILED)
    else if s == EnumName(PAYMENT_CANCELLED) then Some(PAYMENT_CANCELLED)
    else if s == EnumName(PAYMENT_REFUNDED) then Some(PAYMENT_REFUNDED)
    else None
  }

  predicate IsUpper(c: char) {
    'A' <= c <= 'Z'
  }

  function Marked(c: char): string {
    if IsUpper(c) then ['_', c] else [c]
  }

  /** Every capital gets an underscore in front. */
  function Underscored(s: string): string {
    if s == "" then "" else Marked(s[0]) + Underscored(s[1..])
  }

  function TrimUnderscores(s: string): string {
    if s != "" && s[0] == '_' then TrimUnderscores(s[1..]) else s
  }

  function WithoutEvent(s: string): string {
    if |s| >= 5 && s[|s| - 5..] == "Event" then s[..|s| - 5] else s
  }

  function FromClassName(s: string): string {
    TrimUnderscores(Upper(Underscored(WithoutEvent(s))))
  }

  function Normalize(s: string): Option<string> {
    if Registered(s).Some? then Some(s)
    else if Member(s).Some? then Some(TypeName(Member(s).value))
    else
      var k := Member(FromClassName(s));
      if k.Some? then Some(TypeName(k.value)) else None
  }

  lemma TypeNameIsRegistered(k: PaymentEventType)
    ensures Registered(TypeName(k)) == Some(k)
  {
    assert "payment.created"[8] == 'c' && "payment.processed"[8] == 'p' && "payment.succeeded"[8] == 's';
    assert "payment.failed"[8] == 'f' && "payment.cancelled"[8] == 'c' && "payment.refunded"[8] == 'r';
  }

  lemma EnumNameLetters(k: PaymentEventType)
    ensures EnumName(k)[0] == 'P' && EnumName(k)[1] == 'A' && EnumName(k)[8] == Capitals(k)[0]
    ensures |EnumName(k)| == 8 + |Capitals(k)| && TypeName(k)[0] == 'p'
  {
  }

  lemma CapitalsDiffer(k: PaymentEventType, j: PaymentEventType)
    requires k != j
    ensures |Capitals(k)| != |Capitals(j)| || Capitals(k)[0] != Capitals(j)[0]
  {
  }

  lemma EnumNamesDiffer(k: PaymentEventType, j: PaymentEventType)
    ensures k != j ==> EnumName(k) != EnumName(j)
    ensures EnumName(k) != TypeName(j)
  {
    EnumNameLetters(k);
    EnumNameLetters(j);
    if k != j {
      CapitalsDiffer(k, j);
    }
  }

  lemma EnumNameIsMember(k: PaymentEventType)
    ensures Member(EnumName(k)) == Some(k) && Registered(EnumName(k)).None?
  {
    EnumNamesDiffer(k, PAYMENT_CREATED);
    EnumNamesDiffer(k, PAYMENT_PROCESSED);
    EnumNamesDiffer(k, PAYMENT_SUCCEEDED);
    EnumNamesDiffer(k, PAYMENT_FAILED);
    EnumNamesDiffer(k, PAYMENT_CANCELLED);
    EnumNamesDiffer(k, PAYMENT_REFUNDED);
  }

  /** Whatever is accepted becomes one of the six canonical names, and normalising that changes nothing. */
  lemma NormalizeIsIdempotent(s: string)
    ensures Normalize(s).Some? ==> Normalize(Normalize(s).value) == Normalize(s)
    ensures Normalize(s).Some? ==> exists k :: Normalize(s).value == TypeName(k)
  {
    if Registered(s).Some? {
      assert s == TypeName(Registered(s).value);
    } else if Member(s).Some? {
      TypeNameIsRegistered(Member(s).value);
    } else if Member(FromClassName(s)).Some? {
      TypeNameIsRegistered(Member(FromClassName(s)).value);
    }
  }

  // ---------- the camel-case loop ----------

  /** A capitalised word: one capital, at the front. */
  ghost predicate IsWord(w: string) {
    w != "" && IsUpper(w[0]) && NoCapitals(w[1..])
  }

  ghost predicate NoCapitals(s: string) {
    forall i :: 0 <= i < |s| ==> !IsUpper(s[i])
  }

  function Snake(words: seq<string>): string {
    if words == [] then "" else "_" + words[0] + Snake(words[1..])
  }

  lemma {:induction false} NothingToUnderscore(s: string)
    requires NoCapitals(s)
    ensures Underscored(s) == s
  {
    if s != "" {
      NothingToUnderscore(s[1..]);
    }
  }

  lemma {:induction false} UnderscoredAppend(s: string, t: string)
    ensures Underscored(s + t) == Underscored(s) + Underscored(t)
  {
    if s == "" {
      assert s + t == t;
    } else {
      UnderscoredAppend(s[1..], t);
      assert (s + t)[1..] == s[1..] + t && (s + t)[0] == s[0];
      var first := Marked(s[0]);
      assert first + (Underscored(s[1..]) + Underscored(t)) == first + Underscored(s[1..]) + Underscored(t);
    }
  }

  /** The loop separates the words of a camel-case name. */
  lemma {:induction false} LoopSplitsWords(words: seq<string>)
    requires forall i :: 0 <= i < |words| ==> IsWord(words[i])
    ensures Underscored(Flatten(words)) == Snake(words)
  {
    if words != [] {
      var w, rest := words[0], words[1..];
      assert IsWord(words[0]);
      LoopSplitsWords(rest);
      UnderscoredAppend(w, Flatten(rest));
      NothingToUnderscore(w[1..]);
      assert Underscored(w) == "_" + w;
    }
  }

  lemma TrimOne(s: string)
    requires s == "" || s[0] != '_'
    ensures TrimUnderscores("_" + s) == s
  {
    assert ("_" + s)[1..] == s;
  }

  lemma UpperAppend(s: string, t: string)
    ensures Upper(s + t) == Upper(s) + Upper(t)
  {
  }

  lemma EventSuffixGoes(name: string)
    ensures WithoutEvent(name + "Event") == name
  {
    assert (name + "Event")[|name|..] == "Event";
    assert (name + "Event")[..|name|] == name;
  }

  lemma LeadingUnderscoreGoes(tail: string)
    requires tail != "" && IsUpper(tail[0])
    ensures TrimUnderscores(Upper("_" + tail)) == Upper(tail)
  {
    UpperAppend("_", tail);
    assert Upper("_") == "_";
    TrimOne(Upper(tail));
  }

  lemma SnakeStarts(words: seq<string>)
    requires words != [] && IsWord(words[0])
    ensures var tail := words[0] + Snake(words[1..]); Snake(words) == "_" + tail && tail != "" && IsUpper(tail[0])
  {
  }

  /** A class name in camel case turns into its words in capitals, with single underscores between them. */
  lemma ClassNameToEnumName(words: seq<string>)
    requires words != [] && forall i :: 0 <= i < |words| ==> IsWord(words[i])
    ensures FromClassName(Flatten(words) + "Event") == Upper(words[0] + Snake(words[1..]))
  {
    assert IsWord(words[0]);
    SnakeStarts(words);
    LeadingUnderscoreGoes(words[0] + Snake(words[1..]));
    LoopSplitsWords(words);
    EventSuffixGoes(Flatten(words));
  }

  function Verb(k: PaymentEventType): string {
    match k
    case PAYMENT_CREATED => "Created"
    case PAYMENT_PROCESSED => "Processed"
    case PAYMENT_SUCCEEDED => "Succeeded"
    case PAYMENT_FAILED => "Failed"
    case PAYMENT_CANCELLED => "Cancelled"
    case PAYMENT_REFUNDED => "Refunded"
  }

  function ClassName(k: PaymentEventType): string {
    "Payment" + Verb(k) + "Event"
  }

  lemma PaymentIsWord()
    ensures IsWord("Payment")
  {
  }

  lemma VerbIsWord(k: PaymentEventType)
    ensures IsWord(Verb(k))
  {
  }

  lemma VerbInCapitals(k: PaymentEventType)
    ensures Upper(Verb(k)) == Capitals(k)
  {
    match k
    case PAYMENT_CREATED => assert Upper("Created") == "CREATED";
    case PAYMENT_PROCESSED => assert Upper("Processed") == "PROCESSED";
    case PAYMENT_SUCCEEDED => assert Upper("Succeeded") == "SUCCEEDED";
    case PAYMENT_FAILED => assert Upper("Failed") == "FAILED";
    case PAYMENT_CANCELLED => assert Upper("Cancelled") == "CANCELLED";
    case PAYMENT_REFUNDED => assert Upper("Refunded") == "REFUNDED";
  }

  /** Each of the three documented spellings of each event type is accepted, and names that type. */
  lemma EverySpellingIsAccepted(k: PaymentEventType)
    ensures Normalize(TypeName(k)) == Some(TypeName(k))
    ensures Normalize(EnumName(k)) == Some(TypeName(k))
    ensures Normalize(ClassName(k)) == Some(TypeName(k))
  {
    TypeNameIsRegistered(k);
    EnumNameIsMember(k);
    ClassNameIsNeither(k);
    ClassNameReads(k);
  }

  lemma ClassNameIsNeither(k: PaymentEventType)
    ensures Registered(ClassName(k)).None? && Member(ClassName(k)).None?
  {
    var name := ClassName(k);
    assert name[0] == 'P' && name[1] == 'a';
    forall j: PaymentEventType ensures TypeName(j) != name && EnumName(j) != name {
      EnumNameLetters(j);
    }
  }

  lemma ClassNameReads(k: PaymentEventType)
    ensures FromClassName(ClassName(k)) == EnumName(k)
  {
    VerbInCapitals(k);
    PaymentIsWord();
    VerbIsWord(k);
    var words := ["Payment", Verb(k)];
    FlattenPair("Payment", Verb(k));
    ClassNameToEnumName(words);
    UpperAppend("Payment", "_" + Verb(k));
    UpperAppend("_", Verb(k));
    assert Upper("_") == "_" && Upper("Payment") == "PAYMENT";
    assert words[0] == "Payment";
  }

  lemma FlattenPair(s: string, t: string)
    ensures Flatten([s, t]) == s + t && Snake([s, t][1..]) == "_" + t
  {
    assert [s, t][1..] == [t] && [t][1..] == [];
    assert Flatten([t]) == t && Snake([t]) == "_" + t;
  }

  // ---------- every other spelling ----------

  function LowerChar(c: char): char {
    if IsUpper(c) then c - 'A' + 'a' else c
  }

  function Lower(s: string): (r: string)
    ensures |r| == |s|
    ensures forall i :: 0 <= i < |s| ==> r[i] == LowerChar(s[i])
  {
    seq(|s|, i requires 0 <= i < |s| => LowerChar(s[i]))
  }

  /** What the loop and the upper-casing make of a name, before leading underscores go. */
  function Mapped(s: string): string {
    Upper(Underscored(s))
  }

  predicate AllCapitals(s: string) {
    forall i :: 0 <= i < |s| ==> IsUpper(s[i])
  }

  function Underscores(n: nat): (r: string)
    ensures |r| == n
  {
    if n == 0 then "" else "_" + Underscores(n - 1)
  }

  lemma MappedFront(s: string)
    requires s != ""
    ensures Mapped(s) == (if IsUpper(s[0]) then ['_', s[0]] else [UpperChar(s[0])]) + Mapped(s[1..])
  {
    UpperAppend(Marked(s[0]), Underscored(s[1..]));
    if IsUpper(s[0]) {
      assert Upper(['_', s[0]]) == ['_', s[0]];
    } else {
      assert Upper([s[0]]) == [UpperChar(s[0])];
    }
  }

  lemma MappedAppend(s: string, t: string)
    ensures Mapped(s + t) == Mapped(s) + Mapped(t)
  {
    UnderscoredAppend(s, t);
    UpperAppend(Underscored(s), Underscored(t));
  }

  lemma CapitalOfSmall(c: char, d: char)
    requires IsUpper(c)
    ensures !IsUpper(d) && UpperChar(d) == c <==> d == LowerChar(c)
  {
  }

  lemma SameTail(c: char, s: string, d: char, t: string)
    requires [c] + s == [d] + t
    ensures c == d && s == t
  {
    assert ([c] + s)[0] == c && ([d] + t)[0] == d;
    assert ([c] + s)[1..] == s && ([d] + t)[1..] == t;
  }

  lemma Front(s: string)
    requires s != ""
    ensures s == [s[0]] + s[1..]
  {
  }

  /** The first letter behind a capital that no underscore precedes. */
  lemma SmallLetterFirst(b: string, c: char, rest: string)
    requires IsUpper(c) && Mapped(b) == [c] + rest
    ensures b != "" && b[0] == LowerChar(c) && Mapped(b[1..]) == rest
  {
    assert Mapped("") == "";
    MappedFront(b);
    CapitalOfSmall(c, b[0]);
    assert Mapped(b)[0] == if IsUpper(b[0]) then '_' else UpperChar(b[0]);
    if !IsUpper(b[0]) {
      SameTail(UpperChar(b[0]), Mapped(b[1..]), c, rest);
    }
  }

  lemma FrontOf(w: string, rest: string)
    requires w != ""
    ensures w + rest == [w[0]] + (w[1..] + rest)
  {
  }

  lemma LowerFront(w: string)
    requires w != ""
    ensures Lower(w) == [LowerChar(w[0])] + Lower(w[1..])
  {
  }

  lemma Regroup(c: char, s: string, t: string)
    ensures [c] + (s + t) == ([c] + s) + t
  {
  }

  /** Read backwards: a run of capitals without underscores comes from the same letters, all small. */
  lemma {:induction false} CapitalsComeFromSmall(b: string, w: string, rest: string) returns (c: string)
    requires AllCapitals(w) && Mapped(b) == w + rest
    ensures b == Lower(w) + c && Mapped(c) == rest
    decreases |w|
  {
    if w == "" {
      c := b;
      assert w + rest == rest;
    } else {
      FrontOf(w, rest);
      SmallLetterFirst(b, w[0], w[1..] + rest);
      c := CapitalsComeFromSmall(b[1..], w[1..], rest);
      Front(b);
      LowerFront(w);
      Regroup(LowerChar(w[0]), Lower(w[1..]), c);
    }
  }

  lemma SmallGiveCapitals(w: string)
    requires AllCapitals(w)
    ensures Mapped(Lower(w)) == w
  {
    forall i | 0 <= i < |w| ensures !IsUpper(Lower(w)[i]) && UpperChar(Lower(w)[i]) == w[i] {
      CapitalOfSmall(w[i], LowerChar(w[i]));
    }
    NothingToUnderscore(Lower(w));
  }

  /** Read backwards: an underscore is one of the name's own, or announces a capital. */
  lemma UnderscoreFirst(b: string, rest: string)
    requires Mapped(b) == "_" + rest
    ensures b != ""
    ensures b[0] == '_' ==> Mapped(b[1..]) == rest
    ensures b[0] != '_' ==> IsUpper(b[0]) && [b[0]] + Mapped(b[1..]) == rest
  {
    assert Mapped("") == "";
    MappedFront(b);
    if IsUpper(b[0]) {
      assert Mapped(b) == ['_'] + ([b[0]] + Mapped(b[1..]));
      SameTail('_', [b[0]] + Mapped(b[1..]), '_', rest);
    } else {
      SameTail(UpperChar(b[0]), Mapped(b[1..]), '_', rest);
    }
  }

  /** The ways to write a word of capitals behind any number of underscores: with a capital or a small first letter. */
  predicate StartsWord(b: string, n: nat, w: string, c: string)
    requires w != ""
  {
    b == Underscores(n) + ([w[0]] + c) || b == Underscores(n) + ([LowerChar(w[0])] + c)
  }

  lemma {:induction false} LeadingUnderscores(b: string, m: nat, w: string, rest: string) returns (n: nat, c: string)
    requires w != "" && AllCapitals(w) && Mapped(b) == Underscores(m) + (w + rest)
    ensures StartsWord(b, n, w, c) && Mapped(c) == w[1..] + rest
    decreases m
  {
    assert w + rest == [w[0]] + (w[1..] + rest);
    if m == 0 {
      assert Underscores(0) + (w + rest) == w + rest;
      SmallLetterFirst(b, w[0], w[1..] + rest);
      n, c := 0, b[1..];
      Front(b);
      assert Underscores(0) + ([LowerChar(w[0])] + c) == b;
    } else {
      var more := Underscores(m - 1) + (w + rest);
      assert Underscores(m) + (w + rest) == "_" + more;
      assert m > 1 ==> more[0] == '_';
      UnderscoreFirst(b, more);
      Front(b);
      if b[0] == '_' {
        n, c := LeadingUnderscores(b[1..], m - 1, w, rest);
        OneMoreUnderscore(b[1..], n, w, c);
        n := n + 1;
      } else {
        assert more == [w[0]] + (w[1..] + rest);
        SameTail(b[0], Mapped(b[1..]), w[0], w[1..] + rest);
        n, c := 0, b[1..];
        assert Underscores(0) + ([w[0]] + c) == b;
      }
    }
  }

  lemma OneMoreUnderscore(b: string, n: nat, w: string, c: string)
    requires w != "" && StartsWord(b, n, w, c)
    ensures StartsWord("_" + b, n + 1, w, c)
  {
    assert forall x: string :: Underscores(n + 1) + x == "_" + (Underscores(n) + x);
  }

  /** Any number of underscores, "Payment" or "payment", then the verb capitalised, or small behind one underscore. */
  predicate LooselySpelled(b: string, k: PaymentEventType, n: nat) {
    || StartsWord(b, n, "PAYMENT", "ayment" + Verb(k))
    || StartsWord(b, n, "PAYMENT", "ayment" + ("_" + Lower(Capitals(k))))
  }

  lemma CapitalsAreCapital(k: PaymentEventType)
    ensures AllCapitals(Capitals(k)) && Capitals(k) != ""
  {
  }

  lemma CreatedFromCapitals()
    ensures "Created" == ["CREATED"[0]] + Lower("CREATED"[1..])
  {
    assert "CREATED"[1..] == "REATED";
    assert Lower("REATED") == "reated";
  }

  lemma ProcessedFromCapitals()
    ensures "Processed" == ["PROCESSED"[0]] + Lower("PROCESSED"[1..])
  {
    assert "PROCESSED"[1..] == "ROCESSED";
    assert Lower("ROCESSED") == "rocessed";
  }

  lemma SucceededFromCapitals()
    ensures "Succeeded" == ["SUCCEEDED"[0]] + Lower("SUCCEEDED"[1..])
  {
    assert "SUCCEEDED"[1..] == "UCCEEDED";
    assert Lower("UCCEEDED") == "ucceeded";
  }

  lemma FailedFromCapitals()
    ensures "Failed" == ["FAILED"[0]] + Lower("FAILED"[1..])
  {
    assert "FAILED"[1..] == "AILED";
    assert Lower("AILED") == "ailed";
  }

  lemma CancelledFromCapitals()
    ensures "Cancelled" == ["CANCELLED"[0]] + Lower("CANCELLED"[1..])
  {
    assert "CANCELLED"[1..] == "ANCELLED";
    assert Lower("ANCELLED") == "ancelled";
  }

  lemma RefundedFromCapitals()
    ensures "Refunded" == ["REFUNDED"[0]] + Lower("REFUNDED"[1..])
  {
    assert "REFUNDED"[1..] == "EFUNDED";
    assert Lower("EFUNDED") == "efunded";
  }

  lemma VerbFromCapitals(k: PaymentEventType)
    ensures AllCapitals(Capitals(k)) && Capitals(k) != "" && Verb(k) == [Capitals(k)[0]] + Lower(Capitals(k)[1..])
  {
    CapitalsAreCapital(k);
    match k
    case PAYMENT_CREATED => CreatedFromCapitals();
    case PAYMENT_PROCESSED => ProcessedFromCapitals();
    case PAYMENT_SUCCEEDED => SucceededFromCapitals();
    case PAYMENT_FAILED => FailedFromCapitals();
    case PAYMENT_CANCELLED => CancelledFromCapitals();
    case PAYMENT_REFUNDED => RefundedFromCapitals();
  }

  lemma PaymentLetters()
    ensures AllCapitals("PAYMENT") && "PAYMENT"[1..] == "AYMENT" && AllCapitals("AYMENT")
    ensures Lower("AYMENT") == "ayment" && LowerChar('P') == 'p'
  {
  }

  lemma {:induction false} TrimmedAre(t: string, e: string) returns (m: nat)
    requires TrimUnderscores(t) == e && e != ""
    ensures t == Underscores(m) + e
  {
    if t[0] == '_' {
      Front(t);
      m := TrimmedAre(t[1..], e);
      assert Underscores(m + 1) + e == "_" + (Underscores(m) + e);
      m := m + 1;
    } else {
      m := 0;
      assert Underscores(0) + e == e;
    }
  }

  lemma {:induction false} TrimAll(m: nat, e: string)
    requires e != "" && e[0] != '_'
    ensures TrimUnderscores(Underscores(m) + e) == e
  {
    if m == 0 {
      assert Underscores(0) + e == e;
    } else {
      TrimAll(m - 1, e);
      assert Underscores(m) + e == "_" + (Underscores(m - 1) + e);
      assert ("_" + (Underscores(m - 1) + e))[1..] == Underscores(m - 1) + e;
    }
  }

  lemma {:induction false} UnderscoresStay(n: nat)
    ensures Mapped(Underscores(n)) == Underscores(n)
  {
    if n == 0 {
      assert Mapped("") == "";
    } else {
      UnderscoresStay(n - 1);
      MappedFront(Underscores(n));
      assert Underscores(n)[1..] == Underscores(n - 1);
    }
  }

  /** The verb read backwards. */
  lemma VerbEitherWay(b: string, k: PaymentEventType)
    requires Mapped(b) == "_" + Capitals(k)
    ensures b == Verb(k) || b == "_" + Lower(Capitals(k))
  {
    var w := Capitals(k);
    VerbFromCapitals(k);
    UnderscoreFirst(b, w);
    Front(b);
    Front(w);
    if b[0] == '_' {
      assert w + "" == w;
      var d := CapitalsComeFromSmall(b[1..], w, "");
      EmptyMapped(d);
    } else {
      SameTail(b[0], Mapped(b[1..]), w[0], w[1..]);
      assert w[1..] + "" == w[1..];
      var d := CapitalsComeFromSmall(b[1..], w[1..], "");
      EmptyMapped(d);
    }
  }

  lemma EmptyMapped(d: string)
    ensures Mapped(d) == "" ==> d == ""
  {
    if d != "" {
      MappedFront(d);
    }
  }

  lemma MappedOfFront(c: char, s: string)
    ensures Mapped([c] + s) == (if IsUpper(c) then ['_', c] else [UpperChar(c)]) + Mapped(s)
  {
    MappedFront([c] + s);
    assert ([c] + s)[1..] == s;
  }

  lemma TwoLetters(c: char, s: string)
    ensures ['_', c] + s == "_" + ([c] + s)
  {
  }

  lemma CapitalisedMapped(c: char, s: string)
    requires IsUpper(c) && AllCapitals(s)
    ensures Mapped([c] + Lower(s)) == "_" + ([c] + s)
  {
    MappedOfFront(c, Lower(s));
    SmallGiveCapitals(s);
    TwoLetters(c, s);
  }

  lemma UnderscoredMapped(w: string)
    requires AllCapitals(w)
    ensures Mapped("_" + Lower(w)) == "_" + w
  {
    MappedFront("_" + Lower(w));
    assert ("_" + Lower(w))[1..] == Lower(w);
    SmallGiveCapitals(w);
  }

  /** And forwards. */
  lemma VerbMapped(k: PaymentEventType)
    ensures Mapped(Verb(k)) == "_" + Capitals(k) && Mapped("_" + Lower(Capitals(k))) == "_" + Capitals(k)
  {
    VerbFromCapitals(k);
    CapitalisedMapped(Capitals(k)[0], Capitals(k)[1..]);
    Front(Capitals(k));
    UnderscoredMapped(Capitals(k));
  }

  lemma CapitalStart(n: nat, tail: string, rest: string)
    requires Mapped(tail) == rest
    ensures TrimUnderscores(Mapped(Underscores(n) + (['P'] + tail))) == ['P'] + rest
  {
    UnderscoresStay(n);
    MappedAppend(Underscores(n), ['P'] + tail);
    MappedFront(['P'] + tail);
    assert (['P'] + tail)[1..] == tail;
    var e := ['P'] + rest;
    assert ['_', 'P'] + rest == "_" + e;
    AfterUnderscores(n, e);
    TrimAll(n + 1, e);
  }

  lemma SmallStart(n: nat, tail: string, rest: string)
    requires Mapped(tail) == rest
    ensures TrimUnderscores(Mapped(Underscores(n) + (['p'] + tail))) == ['P'] + rest
  {
    UnderscoresStay(n);
    MappedAppend(Underscores(n), ['p'] + tail);
    MappedFront(['p'] + tail);
    assert (['p'] + tail)[1..] == tail;
    assert UpperChar('p') == 'P';
    TrimAll(n, ['P'] + rest);
  }

  lemma TailMapped(c: string, rest: string)
    requires Mapped(c) == rest
    ensures Mapped("ayment" + c) == "AYMENT" + rest
  {
    PaymentLetters();
    SmallGiveCapitals("AYMENT");
    MappedAppend("ayment", c);
  }

  lemma EitherStart(b: string, n: nat, tail: string)
    requires StartsWord(b, n, "PAYMENT", tail)
    ensures b == Underscores(n) + (['P'] + tail) || b == Underscores(n) + (['p'] + tail)
  {
    assert "PAYMENT"[0] == 'P' && LowerChar('P') == 'p';
  }

  lemma EitherStartIsMapped(b: string, n: nat, tail: string, rest: string)
    requires StartsWord(b, n, "PAYMENT", tail) && Mapped(tail) == rest
    ensures TrimUnderscores(Mapped(b)) == ['P'] + rest
  {
    EitherStart(b, n, tail);
    CapitalStart(n, tail, rest);
    SmallStart(n, tail, rest);
  }

  lemma PaymentInFront(rest: string)
    ensures ['P'] + ("AYMENT" + rest) == "PAYMENT" + rest
  {
    assert ['P'] + "AYMENT" == "PAYMENT";
    Regroup('P', "AYMENT", rest);
  }

  lemma LooseIsMapped(b: string, n: nat, c: string, rest: string)
    requires StartsWord(b, n, "PAYMENT", "ayment" + c) && Mapped(c) == rest
    ensures TrimUnderscores(Mapped(b)) == "PAYMENT" + rest
  {
    TailMapped(c, rest);
    EitherStartIsMapped(b, n, "ayment" + c, "AYMENT" + rest);
    PaymentInFront(rest);
  }

  lemma {:induction false} AfterUnderscores(n: nat, e: string)
    ensures Underscores(n) + ("_" + e) == Underscores(n + 1) + e
  {
    if n > 0 {
      AfterUnderscores(n - 1, e);
      assert Underscores(n) + ("_" + e) == "_" + (Underscores(n - 1) + ("_" + e));
      assert Underscores(n + 1) + e == "_" + (Underscores(n) + e);
    }
  }

  lemma MappedIsLoose(b: string, k: PaymentEventType) returns (n: nat)
    requires TrimUnderscores(Mapped(b)) == EnumName(k)
    ensures LooselySpelled(b, k, n)
  {
    PaymentLetters();
    var rest := "_" + Capitals(k);
    var m := TrimmedAre(Mapped(b), EnumName(k));
    var c;
    n, c := LeadingUnderscores(b, m, "PAYMENT", rest);
    var d := CapitalsComeFromSmall(c, "AYMENT", rest);
    VerbEitherWay(d, k);
  }

  lemma MappedIffLoose(b: string, k: PaymentEventType)
    ensures TrimUnderscores(Mapped(b)) == EnumName(k) <==> exists n: nat :: LooselySpelled(b, k, n)
  {
    if TrimUnderscores(Mapped(b)) == EnumName(k) {
      var n := MappedIsLoose(b, k);
    }
    if exists n: nat :: LooselySpelled(b, k, n) {
      var n: nat :| LooselySpelled(b, k, n);
      VerbMapped(k);
      if StartsWord(b, n, "PAYMENT", "ayment" + Verb(k)) {
        LooseIsMapped(b, n, Verb(k), "_" + Capitals(k));
      } else {
        LooseIsMapped(b, n, "_" + Lower(Capitals(k)), "_" + Capitals(k));
      }
    }
  }

  lemma MemberIs(s: string, k: PaymentEventType)
    ensures Member(s) == Some(k) <==> s == EnumName(k)
  {
    EnumNameIsMember(k);
  }

  /**
    Beyond canonical and enum names, exactly these are accepted for an event type: without one trailing "Event", any
    number of underscores, then the two words in camel case or joined by one underscore.
   */
  lemma AcceptedSpellings(s: string, k: PaymentEventType)
    requires Registered(s).None? && Member(s).None?
    ensures Normalize(s) == Some(TypeName(k)) <==> exists n: nat :: LooselySpelled(WithoutEvent(s), k, n)
  {
    MappedIffLoose(WithoutEvent(s), k);
    MemberIs(FromClassName(s), k);
    var m := Member(FromClassName(s));
    if m.Some? {
      TypeNameIsRegistered(m.value);
      TypeNameIsRegistered(k);
    }
  }

  lemma UnderscoreIsNeither(s: string)
    requires s != "" && s[0] == '_'
    ensures Registered(s).None? && Member(s).None?
  {
    forall j: PaymentEventType ensures s != TypeName(j) && s != EnumName(j) {
      EnumNameLetters(j);
    }
  }

  lemma SuffixStays(a: string, b: string, k: PaymentEventType)
    ensures WithoutEvent(a + (b + Verb(k))) == a + (b + Verb(k))
  {
    var s := a + (b + Verb(k));
    assert s[|s| - |Verb(k)|..] == Verb(k);
    VerbIsNoSuffix(s, k);
  }

  lemma UnderscoredIsLoose(n: nat, k: PaymentEventType)
    ensures LooselySpelled(Underscores(n) + ("Payment" + Verb(k)), k, n)
  {
    var verb := Verb(k);
    assert "Payment" + verb == ['P'] + ("ayment" + verb);
    assert StartsWord(Underscores(n) + ("Payment" + verb), n, "PAYMENT", "ayment" + verb);
  }

  /** For one, class names without their suffix, behind any number of underscores. */
  lemma UnderscoredNamesAreAccepted(n: nat, k: PaymentEventType)
    requires n > 0
    ensures Normalize(Underscores(n) + ("Payment" + Verb(k))) == Some(TypeName(k))
  {
    var s := Underscores(n) + ("Payment" + Verb(k));
    UnderscoreIsNeither(s);
    SuffixStays(Underscores(n), "Payment", k);
    UnderscoredIsLoose(n, k);
    AcceptedSpellings(s, k);
  }

  lemma VerbIsNoSuffix(s: string, k: PaymentEventType)
    requires |s| >= |Verb(k)| && s[|s| - |Verb(k)|..] == Verb(k)
    ensures WithoutEvent(s) == s
  {
    assert s[|s| - 1] == Verb(k)[|Verb(k)| - 1] == 'd';
    if |s| >= 5 {
      assert s[|s| - 5..][4] == 'd';
    }
  }
}
