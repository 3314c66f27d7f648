/** The EGL error codes (section 3.1 of the Khronos EGL 1.4 specification) and the
    message helpers getErrorString, getHex and formatEglError of EGLCore and EglHelper,
    together with the older formatEglError that prints the raw code. */
module EglErrors {
  import opened Digits

  const EGL_SUCCESS: Int32 := 0x3000
  const EGL_NOT_INITIALIZED: Int32 := 0x3001
  const EGL_BAD_ACCESS: Int32 := 0x3002
  const EGL_BAD_ALLOC: Int32 := 0x3003
  const EGL_BAD_ATTRIBUTE: Int32 := 0x3004
  const EGL_BAD_CONFIG: Int32 := 0x3005
  const EGL_BAD_CONTEXT: Int32 := 0x3006
  const EGL_BAD_CURRENT_SURFACE: Int32 := 0x3007
  const EGL_BAD_DISPLAY: Int32 := 0x3008
  const EGL_BAD_MATCH: Int32 := 0x3009
  const EGL_BAD_NATIVE_PIXMAP: Int32 := 0x300A
  const EGL_BAD_NATIVE_WINDOW: Int32 := 0x300B
  const EGL_BAD_PARAMETER: Int32 := 0x300C
  const EGL_BAD_SURFACE: Int32 := 0x300D
  const EGL_CONTEXT_LOST: Int32 := 0x300E

  /** The codes the error table names: EGL_SUCCESS through EGL_CONTEXT_LOST. */
  predicate IsNamedCode(error: Int32) {
    EGL_SUCCESS <= error <= EGL_CONTEXT_LOST
  }

  /** The name of a listed EGL code. */
  function ErrorName(error: Int32): (name: string)
    requires IsNamedCode(error)
    ensures |name| > 4 && name[..4] == "EGL_"
  {
    match error
    case 0x3000 => "EGL_SUCCESS"
    case 0x3001 => "EGL_NOT_INITIALIZED"
    case 0x3002 => "EGL_BAD_ACCESS"
    case 0x3003 => "EGL_BAD_ALLOC"
    case 0x3004 => "EGL_BAD_ATTRIBUTE"
    case 0x3005 => "EGL_BAD_CONFIG"
    case 0x3006 => "EGL_BAD_CONTEXT"
    case 0x3007 => "EGL_BAD_CURRENT_SURFACE"
    case 0x3008 => "EGL_BAD_DISPLAY"
    case 0x3009 => "EGL_BAD_MATCH"
    case 0x300A => "EGL_BAD_NATIVE_PIXMAP"
    case 0x300B => "EGL_BAD_NATIVE_WINDOW"
    case 0x300C => "EGL_BAD_PARAMETER"
    case 0x300D => "EGL_BAD_SURFACE"
    case _ => "EGL_CONTEXT_LOST"
  }

  /** getHex: "0x" followed by Integer.toHexString, the unsigned 32-bit value in
      lower-case hexadecimal without leading zeros. */
  function Hex(value: Int32): (r: string)
    ensures |r| >= 3 && r[..2] == "0x"
    ensures FromDigits(r[2..], 16) == Unsigned32(value)
  {
    var digits := ToDigits(Unsigned32(value), 16);
    FromToDigits(Unsigned32(value), 16);
    assert ("0x" + digits)[2..] == digits;
    "0x" + digits
  }

  /** getErrorString: the name of a listed code, "0x" and the hexadecimal value otherwise. */
  function ErrorString(error: Int32): string
  {
    if IsNamedCode(error) then ErrorName(error) else Hex(error)
  }

  /** formatEglError of EGLCore and EglHelper. */
  function FormatEglError(functionName: string, error: Int32): string
  {
    functionName + " failed: " + ErrorString(error)
  }

  /** formatEglError of the older EglHelper, which appends the code in decimal. */
  function LegacyFormatEglError(functionName: string, error: Int32): string
  {
    functionName + " failed: " + DecimalString(error)
  }

  /** Every listed code gets a name beginning "EGL_", every other code its hexadecimal
      rendering, which parses back to the code's unsigned value. */
  lemma ErrorStringCases(error: Int32)
    ensures IsNamedCode(error) ==> ErrorString(error) == ErrorName(error) && ErrorString(error)[..4] == "EGL_"
    ensures !IsNamedCode(error) ==>
              && ErrorString(error) == Hex(error)
              && ErrorString(error)[..2] == "0x"
              && FromDigits(ErrorString(error)[2..], 16) == Unsigned32(error)
  {
  }

  /** The table names each listed code differently. */
  lemma ErrorNameInjective(a: Int32, b: Int32)
    requires IsNamedCode(a) && IsNamedCode(b)
    ensures ErrorName(a) == ErrorName(b) ==> a == b
  {
  }

  lemma NameIsNotHex(named: Int32, other: Int32)
    requires IsNamedCode(named) && !IsNamedCode(other)
    ensures ErrorName(named) != Hex(other)
  {
    var n, h := ErrorName(named), Hex(other);
    assert n[..4][0] == 'E';
    assert h[..2][0] == '0';
  }

  /** getErrorString tells every two codes apart. */
  lemma ErrorStringInjective(a: Int32, b: Int32)
    ensures ErrorString(a) == ErrorString(b) ==> a == b
  {
    if ErrorString(a) == ErrorString(b) {
      if IsNamedCode(a) && IsNamedCode(b) {
        ErrorNameInjective(a, b);
      } else if !IsNamedCode(a) && !IsNamedCode(b) {
        assert Unsigned32(a) == Unsigned32(b);
      } else if IsNamedCode(a) {
        NameIsNotHex(a, b);
      } else {
        NameIsNotHex(b, a);
      }
    }
  }

  /** The message formatEglError builds determines the code. */
  lemma FormatEglErrorInjective(functionName: string, a: Int32, b: Int32)
    ensures FormatEglError(functionName, a) == FormatEglError(functionName, b) ==> a == b
  {
    var prefix := functionName + " failed: ";
    if FormatEglError(functionName, a) == FormatEglError(functionName, b) {
      assert ErrorString(a) == FormatEglError(functionName, a)[|prefix|..];
      assert ErrorString(b) == FormatEglError(functionName, b)[|prefix|..];
      ErrorStringInjective(a, b);
    }
  }

  /** The same holds for the older, decimal message. */
  lemma LegacyFormatEglErrorInjective(functionName: string, a: Int32, b: Int32)
    ensures LegacyFormatEglError(functionName, a) == LegacyFormatEglError(functionName, b) ==> a == b
  {
    var prefix := functionName + " failed: ";
    if LegacyFormatEglError(functionName, a) == LegacyFormatEglError(functionName, b) {
      assert DecimalString(a) == LegacyFormatEglError(functionName, a)[|prefix|..];
      assert DecimalString(b) == LegacyFormatEglError(functionName, b)[|prefix|..];
      DecimalStringInjective(a, b);
    }
  }
}
