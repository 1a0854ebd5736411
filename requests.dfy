/** Who is calling, and the request-body checks that the framework performs
    before an action runs.

    Every controller carries [ApiController] and Program.cs does not turn off
    the automatic model-state filter, so a body that fails the data
    annotations of its DTO is answered with 400 before the action's first
    line. Authentication itself happens outside the model: the caller is
    described by the "UserId" claim of the token (JwtService.cs:27). */
module Requests {
  import opened Text
  import opened Model

  /** The "UserId" claim: missing or empty, a string `int.Parse` accepts, or
      one it rejects (which `int.TryParse` rejects as well). */
  datatype Claim = Absent | Numeric(id: int) | NonNumeric

  /** CartItemCreateDto and CartItemUpdateDto: Quantity in [1, int.MaxValue]. */
  predicate ValidCartQuantity(quantity: int)
  {
    1 <= quantity <= Int32Max
  }

  /** `^\d{6}$` matched against the whole value. */
  predicate IsPinCode(s: string)
  {
    |s| == 6 && forall i :: 0 <= i < |s| ==> IsAsciiDigit(s[i])
  }

  /** OrderCreateDto: a non-blank shipping address of 10 to 200 UTF-16 code
      units and a six-digit pin code. */
  predicate ValidOrderRequest(shippingAddress: string, pinCode: string)
  {
    && RequiredLength(shippingAddress, 10, 200)
    && IsPinCode(pinCode)
  }

  /** The modes of PaymentCreateDto's `^(Wallet|CreditCard|COD)$`, which is
      also the list PaymentController checks. */
  predicate IsPaymentMode(mode: string)
  {
    mode == "Wallet" || mode == "CreditCard" || mode == "COD"
  }

  /** PaymentCreateDto: Amount at least 0.01, a known payment mode. */
  predicate ValidPaymentRequest(amount: int, mode: string)
  {
    1 <= amount && IsPaymentMode(mode)
  }

  /** [EmailAddress]: exactly one '@', neither first nor last. */
  predicate EmailAddressAttribute(s: string)
  {
    exists k :: 0 < k < |s| - 1 && s[k] == '@' &&
      forall j :: 0 <= j < |s| && j != k ==> s[j] != '@'
  }

  /** A [Required] string with a [StringLength(max, MinimumLength = min)],
      whose bounds count UTF-16 code units. */
  predicate RequiredLength(s: string, min: nat, max: nat)
  {
    !IsBlank(s) && min <= Utf16Length(s) <= max
  }

  /** A character outside the Basic Multilingual Plane counts twice: two
      emoji meet the username minimum of three, one does not. */
  lemma SurrogatePairsCountTwice()
    ensures RequiredLength("\U{1F600}\U{1F600}", 3, 50)
    ensures !RequiredLength("\U{1F600}", 3, 50)
  {
    Utf16LengthOfEmoji();
    assert Utf16Length("\U{1F600}") == Utf16Length([]) + 2;
  }

  /** UserRegisterDto. */
  predicate ValidRegisterRequest(username: string, email: string, password: string, role: string)
  {
    && RequiredLength(username, 3, 50)
    && !IsBlank(email) && EmailAddressAttribute(email)
    && RequiredLength(password, 6, 100)
    && !IsBlank(role)
  }

  /** LoginRequest. */
  predicate ValidLoginRequest(username: string, password: string)
  {
    RequiredLength(username, 3, 50) && RequiredLength(password, 6, 100)
  }

  /** ProductCreateDto and ProductUpdateDto: a non-blank name of at most 100
      UTF-16 code units (price, stock and category are value types, always present). */
  predicate ValidProductRequest(name: string)
  {
    RequiredLength(name, 0, 100)
  }
}
