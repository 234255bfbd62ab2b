/**
 * The translation of WorldEdit's internal exceptions into the CommandException
 * that the command layer shows to the player.
 *
 * In the source every handler is a method that throws; here each handler is one
 * case of the total function Convert, whose result is the CommandException thrown.
 * Handler selection by the exception's runtime class is replaced by one datatype
 * constructor per handled exception class.
 */
module ExceptionConverter {
  import opened Wrappers

  /** The configuration values the converter reads. */
  datatype Configuration = Configuration(maxBrushRadius: int, maxRadius: int)

  /**
   * The exceptions the converter has a handler for. NumberFormat is Java's
   * NumberFormatException; Generic is any other WorldEditException, handled by
   * the catch-all handler.
   */
  datatype WorldEditError =
    | NumberFormat(message: string)
    | IncompleteRegion
    | UnknownItem(id: string)
    | InvalidItem(message: string)
    | DisallowedItem(id: string)
    | MaxChangedBlocks(blockLimit: int)
    | MaxBrushRadius
    | MaxRadius
    | UnknownDirection(direction: string)
    | InsufficientArguments(message: string)
    | RegionOperation(message: string)
    | Expression(message: string)
    | EmptyClipboard
    | InvalidFilename(filename: string, message: string)
    | FilenameResolution(filename: string, message: string)
    | InvalidToolBind(itemId: int, message: string)
    | FileSelectionAborted
    | Generic(message: string)

  /** The exception every handler throws: a message and an optional cause. */
  datatype CommandException = CommandException(message: string, cause: Option<WorldEditError>)

  // The message fragments of the source. Its non-ASCII text is stored as
  // replacement characters, and the same characters are kept here as opaque constants.
  const IncompleteRegionMessage: string := "������ ���������� �������� ������."
  const ItemPrefix: string := "���� '"
  const UnknownItemSuffix: string := "' �� ������."
  const DisallowedItemSuffix: string := "' �������� ����������� WorldEdit."
  const MaxChangedBlocksPrefix: string := "������� ����� ������ ��� ���� �������� ("
  const MaxChangedBlocksSuffix: string := ")."
  const MaxBrushRadiusPrefix: string := "������������ ������ ����� (� �������): "
  const MaxRadiusPrefix: string := "������������ ������ (� �������): "
  const UnknownDirectionPrefix: string := "����������� �����������: "
  const EmptyClipboardMessage: string := "��� ����� ������ ����. ��� ������, �������� //copy."
  const InvalidFilenamePrefix: string := "�������� ����� '"
  const FilenameResolutionPrefix: string := "���������� ����� '"
  const FilenameSeparator: string := "' �����������: "
  const ToolBindPrefix: string := "���������� �������� ���������� � "
  const FileSelectionAbortedMessage: string := "����� ����� �������."

  const NumberExpectedPrefix: string := "Number expected; string \""
  const NumberExpectedSuffix: string := "\" given."
  const NumberExpectedMessage: string := "Number expected; string given."

  /** The literal text before the captured group of the pattern ^For input string: "(.*)"$ */
  const ForInputPrefix: string := "For input string: \""

  /** The characters that Java's regular-expression dot does not match. */
  predicate IsLineTerminator(c: char) {
    c == '\n' || c == '\r' || c == '\U{0085}' || c == '\U{2028}' || c == '\U{2029}'
  }

  predicate FreeOfLineTerminators(s: string) {
    forall i :: 0 <= i < |s| ==> !IsLineTerminator(s[i])
  }

  /**
   * Matches the whole message against ^For input string: "(.*)"$ and returns
   * group 1. The dot is greedy, so the group runs up to the final quote and may
   * itself contain quotes; it may not contain a line terminator.
   */
  function ParseForInputString(msg: string): (r: Option<string>)
    ensures r.Some? ==> msg == ForInputPrefix + r.value + "\"" && FreeOfLineTerminators(r.value)
  {
    var n := |ForInputPrefix|;
    if |msg| > n && msg[..n] == ForInputPrefix && msg[|msg| - 1] == '"'
       && FreeOfLineTerminators(msg[n..|msg| - 1])
    then
      assert msg == msg[..n] + msg[n..|msg| - 1] + "\"";
      Some(msg[n..|msg| - 1])
    else
      None
  }

  /** Every message of the matched shape is recognised, with exactly its quoted text. */
  lemma ParseForInputStringComplete(x: string)
    requires FreeOfLineTerminators(x)
    ensures ParseForInputString(ForInputPrefix + x + "\"") == Some(x)
  {
    var msg := ForInputPrefix + x + "\"";
    var n := |ForInputPrefix|;
    assert msg[..n] == ForInputPrefix;
    assert msg[n..|msg| - 1] == x;
  }

  /** A message whose quoted text contains a line terminator does not match. */
  lemma ParseForInputStringRejectsLineTerminator(x: string, k: nat)
    requires k < |x| && IsLineTerminator(x[k])
    ensures ParseForInputString(ForInputPrefix + x + "\"") == None
  {
    var msg := ForInputPrefix + x + "\"";
    var n := |ForInputPrefix|;
    assert msg[n..|msg| - 1] == x;
    assert msg[n..|msg| - 1][k] == x[k];
  }

  /**
   * The greedy group: when the quoted text itself contains a quote, the group
   * runs to the final quote and keeps the inner one.
   */
  lemma ParseForInputStringGreedy(x: string, y: string)
    requires FreeOfLineTerminators(x) && FreeOfLineTerminators(y)
    ensures ParseForInputString(ForInputPrefix + x + "\"" + y + "\"") == Some(x + "\"" + y)
  {
    var inner := x + "\"" + y;
    assert FreeOfLineTerminators(inner) by {
      forall i | 0 <= i < |inner| ensures !IsLineTerminator(inner[i]) {
        if i < |x| {
          assert inner[i] == x[i];
        } else if i > |x| {
          assert inner[i] == y[i - |x| - 1];
        }
      }
    }
    ParseForInputStringComplete(inner);
    assert ForInputPrefix + x + "\"" + y + "\"" == ForInputPrefix + inner + "\"";
  }

  function DigitChar(d: nat): (c: char)
    requires d < 10
    ensures '0' <= c <= '9'
  {
    "0123456789"[d]
  }

  function DigitValue(c: char): nat {
    if '0' <= c <= '9' then (c as int - '0' as int) as nat else 0
  }

  /** The decimal digits of n, without leading zeros. */
  function NatToString(n: nat): (s: string)
    ensures |s| > 0 && '0' <= s[0] <= '9'
    ensures forall i :: 0 <= i < |s| ==> '0' <= s[i] <= '9'
    ensures s[0] == '0' ==> n == 0
  {
    if n < 10 then [DigitChar(n)] else NatToString(n / 10) + [DigitChar(n % 10)]
  }

  /** Java's decimal rendering of an int, as used by string concatenation. */
  function IntToString(n: int): (s: string)
    ensures |s| > 0
    ensures (s[0] == '-') == (n < 0)
  {
    if n < 0 then "-" + NatToString(-n) else NatToString(n)
  }

  /** The value of a string of decimal digits: the inverse of NatToString. */
  function ParseNat(s: string): nat {
    if s == [] then 0 else ParseNat(s[..|s| - 1]) * 10 + DigitValue(s[|s| - 1])
  }

  function ParseInt(s: string): int {
    if |s| > 0 && s[0] == '-' then -(ParseNat(s[1..]) as int) else ParseNat(s)
  }

  lemma {:induction false} NatToStringRoundTrip(n: nat)
    ensures ParseNat(NatToString(n)) == n
  {
    if n >= 10 {
      NatToStringRoundTrip(n / 10);
      var s := NatToString(n / 10) + [DigitChar(n % 10)];
      assert s[..|s| - 1] == NatToString(n / 10);
    }
  }

  lemma IntToStringRoundTrip(n: int)
    ensures ParseInt(IntToString(n)) == n
  {
    if n < 0 {
      NatToStringRoundTrip(-n);
      assert IntToString(n)[1..] == NatToString(-n);
    } else {
      NatToStringRoundTrip(n);
    }
  }

  /** Equal affixes around two texts: the texts are equal. */
  lemma AffixesCancel(p: string, x: string, y: string, q: string)
    requires p + x + q == p + y + q
    ensures x == y
  {
    var a, b := p + x + q, p + y + q;
    assert |x| == |y|;
    assert a[|p|..|p| + |x|] == x;
    assert b[|p|..|p| + |y|] == y;
  }

  /** The exception thrown by the handler for e: every handler throws, none returns. */
  function Convert(e: WorldEditError, config: Configuration, heldName: int -> string): (r: CommandException)
    ensures r.cause.Some? <==> e.Generic?
    ensures e.Generic? ==> r.message == e.message && r.cause == Some(e)
    ensures (e.InvalidItem? || e.InsufficientArguments? || e.RegionOperation? || e.Expression?)
              ==> r.message == e.message
    ensures e.NumberFormat? && ParseForInputString(e.message).None? ==> r.message == NumberExpectedMessage
    ensures (e.NumberFormat? && ParseForInputString(e.message).Some?)
              ==> r.message == NumberExpectedPrefix + ParseForInputString(e.message).value + NumberExpectedSuffix
    ensures e.UnknownItem? ==> r.message == ItemPrefix + e.id + UnknownItemSuffix
    ensures e.DisallowedItem? ==> r.message == ItemPrefix + e.id + DisallowedItemSuffix
    ensures e.MaxChangedBlocks? ==> r.message == MaxChangedBlocksPrefix + IntToString(e.blockLimit) + MaxChangedBlocksSuffix
    ensures e.MaxBrushRadius? ==> r.message == MaxBrushRadiusPrefix + IntToString(config.maxBrushRadius)
    ensures e.MaxRadius? ==> r.message == MaxRadiusPrefix + IntToString(config.maxRadius)
    ensures e.InvalidFilename? ==> r.message == InvalidFilenamePrefix + e.filename + FilenameSeparator + e.message
    ensures e.FilenameResolution? ==> r.message == FilenameResolutionPrefix + e.filename + FilenameSeparator + e.message
  {
    match e
    case NumberFormat(message) =>
      (match ParseForInputString(message)
       case Some(given) => CommandException(NumberExpectedPrefix + given + NumberExpectedSuffix, None)
       case None => CommandException(NumberExpectedMessage, None))
    case IncompleteRegion => CommandException(IncompleteRegionMessage, None)
    case UnknownItem(id) => CommandException(ItemPrefix + id + UnknownItemSuffix, None)
    case InvalidItem(message) => CommandException(message, None)
    case DisallowedItem(id) => CommandException(ItemPrefix + id + DisallowedItemSuffix, None)
    case MaxChangedBlocks(limit) =>
      CommandException(MaxChangedBlocksPrefix + IntToString(limit) + MaxChangedBlocksSuffix, None)
    case MaxBrushRadius => CommandException(MaxBrushRadiusPrefix + IntToString(config.maxBrushRadius), None)
    case MaxRadius => CommandException(MaxRadiusPrefix + IntToString(config.maxRadius), None)
    case UnknownDirection(direction) => CommandException(UnknownDirectionPrefix + direction, None)
    case InsufficientArguments(message) => CommandException(message, None)
    case RegionOperation(message) => CommandException(message, None)
    case Expression(message) => CommandException(message, None)
    case EmptyClipboard => CommandException(EmptyClipboardMessage, None)
    case InvalidFilename(filename, message) =>
      CommandException(InvalidFilenamePrefix + filename + FilenameSeparator + message, None)
    case FilenameResolution(filename, message) =>
      CommandException(FilenameResolutionPrefix + filename + FilenameSeparator + message, None)
    case InvalidToolBind(itemId, message) =>
      CommandException(ToolBindPrefix + heldName(itemId) + ": " + message, None)
    case FileSelectionAborted => CommandException(FileSelectionAbortedMessage, None)
    case Generic(message) => CommandException(message, Some(e))
  }

  /** A NumberFormatException about the text x reports x between quotes. */
  lemma NumberFormatQuotesInput(x: string, config: Configuration, heldName: int -> string)
    requires FreeOfLineTerminators(x)
    ensures Convert(NumberFormat(ForInputPrefix + x + "\""), config, heldName).message
            == NumberExpectedPrefix + x + NumberExpectedSuffix
  {
    ParseForInputStringComplete(x);
  }

  /** Any other NumberFormatException gets the fixed text, without the input. */
  lemma NumberFormatOtherMessage(m: string, config: Configuration, heldName: int -> string)
    requires forall x :: FreeOfLineTerminators(x) ==> m != ForInputPrefix + x + "\""
    ensures Convert(NumberFormat(m), config, heldName).message == NumberExpectedMessage
  {
  }

  /** The handlers whose message is a constant ignore the exception and the configuration. */
  lemma ConstantMessages(e: WorldEditError, c1: Configuration, h1: int -> string, c2: Configuration, h2: int -> string)
    requires e.IncompleteRegion? || e.EmptyClipboard? || e.FileSelectionAborted?
    ensures Convert(e, c1, h1) == Convert(e, c2, h2)
    ensures Convert(e, c1, h1).cause.None?
    ensures Convert(e, c1, h1).message
            == if e.IncompleteRegion? then IncompleteRegionMessage
               else if e.EmptyClipboard? then EmptyClipboardMessage
               else FileSelectionAbortedMessage
  {
  }

  /** The item id can be read back from an unknown-item or disallowed-item message. */
  lemma ItemMessageDeterminesId(e1: WorldEditError, e2: WorldEditError, config: Configuration, heldName: int -> string)
    requires (e1.UnknownItem? && e2.UnknownItem?) || (e1.DisallowedItem? && e2.DisallowedItem?)
    requires Convert(e1, config, heldName) == Convert(e2, config, heldName)
    ensures e1 == e2
  {
    if e1.UnknownItem? {
      AffixesCancel(ItemPrefix, e1.id, e2.id, UnknownItemSuffix);
    } else {
      AffixesCancel(ItemPrefix, e1.id, e2.id, DisallowedItemSuffix);
    }
  }

  /** The block limit reported by MaxChangedBlocks is the exception's own limit, and can be read back. */
  lemma BlockLimitMessageDeterminesLimit(a: int, b: int, config: Configuration, heldName: int -> string)
    requires Convert(MaxChangedBlocks(a), config, heldName) == Convert(MaxChangedBlocks(b), config, heldName)
    ensures a == b
  {
    AffixesCancel(MaxChangedBlocksPrefix, IntToString(a), IntToString(b), MaxChangedBlocksSuffix);
    IntToStringRoundTrip(a);
    IntToStringRoundTrip(b);
  }

  /** The radius messages depend on the configured limits only, and report them. */
  lemma RadiusMessagesReportConfiguration(c1: Configuration, c2: Configuration, h1: int -> string, h2: int -> string)
    ensures (Convert(MaxRadius, c1, h1) == Convert(MaxRadius, c2, h2)) <==> (c1.maxRadius == c2.maxRadius)
    ensures (Convert(MaxBrushRadius, c1, h1) == Convert(MaxBrushRadius, c2, h2))
            <==> (c1.maxBrushRadius == c2.maxBrushRadius)
  {
    if Convert(MaxRadius, c1, h1) == Convert(MaxRadius, c2, h2) {
      AffixesCancel(MaxRadiusPrefix, IntToString(c1.maxRadius), IntToString(c2.maxRadius), "");
      IntToStringRoundTrip(c1.maxRadius);
      IntToStringRoundTrip(c2.maxRadius);
    }
    if Convert(MaxBrushRadius, c1, h1) == Convert(MaxBrushRadius, c2, h2) {
      AffixesCancel(MaxBrushRadiusPrefix, IntToString(c1.maxBrushRadius), IntToString(c2.maxBrushRadius), "");
      IntToStringRoundTrip(c1.maxBrushRadius);
      IntToStringRoundTrip(c2.maxBrushRadius);
    }
  }

  /** The filename handlers put the filename first and the exception's message last. */
  lemma FilenameMessageDeterminesFields(e1: WorldEditError, e2: WorldEditError, config: Configuration, heldName: int -> string)
    requires (e1.InvalidFilename? && e2.InvalidFilename?) || (e1.FilenameResolution? && e2.FilenameResolution?)
    requires |e1.filename| == |e2.filename|
    requires Convert(e1, config, heldName) == Convert(e2, config, heldName)
    ensures e1 == e2
  {
    var p := if e1.InvalidFilename? then InvalidFilenamePrefix else FilenameResolutionPrefix;
    var m1, m2 := Convert(e1, config, heldName).message, Convert(e2, config, heldName).message;
    assert m1 == p + e1.filename + FilenameSeparator + e1.message;
    assert m2 == p + e2.filename + FilenameSeparator + e2.message;
    var k := |p| + |e1.filename|;
    assert m1[|p|..k] == e1.filename;
    assert m2[|p|..k] == e2.filename;
    assert m1[k + |FilenameSeparator|..] == e1.message;
    assert m2[k + |FilenameSeparator|..] == e2.message;
  }
}
