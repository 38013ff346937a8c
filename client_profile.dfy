/** The customer's profile form: the CPF and CEP masks, the address line
    built from a postal-code lookup, and the guards of saving and of the
    lookup. */
module ClientProfile {
  import opened Text
  import opened JsValue
  import opened Lists
  import opened Wrappers

  /** The digits of `s`, in order, at most the first `n` of them. */
  function FirstDigits(s: string, n: nat): (r: string)
    ensures AllDigits(r) && |r| <= n
  {
    Take(KeepDigits(s), n)
  }

  /** The CPF mask applied to at most eleven digits: 000.000.000-00, with a
      separator only before a group that is present. */
  function CpfMask(d: string): string
    requires |d| <= 11
  {
    if d == "" then ""
    else
      var part1 := d[..if |d| < 3 then |d| else 3];
      var part2 := if |d| > 3 then d[3..if |d| < 6 then |d| else 6] else "";
      var part3 := if |d| > 6 then d[6..if |d| < 9 then |d| else 9] else "";
      var part4 := if |d| > 9 then d[9..] else "";
      var out := part1;
      var out := if part2 != "" then out + "." + part2 else out;
      var out := if part3 != "" then out + "." + part3 else out;
      if part4 != "" then out + "-" + part4 else out
  }

  /** `formatCpf` */
  function FormatCpf(s: string): string { CpfMask(FirstDigits(s, 11)) }

  /** `unmaskCpf` */
  function UnmaskCpf(s: string): string { FirstDigits(s, 11) }

  /** The mask on at most eleven digits, written out by their number. */
  lemma CpfMaskCases(d: string)
    requires |d| <= 11
    ensures |d| <= 3 ==> CpfMask(d) == d
    ensures 3 < |d| <= 6 ==> CpfMask(d) == d[..3] + "." + d[3..]
    ensures 6 < |d| <= 9 ==> CpfMask(d) == d[..3] + "." + d[3..6] + "." + d[6..]
    ensures 9 < |d| ==> CpfMask(d) == d[..3] + "." + d[3..6] + "." + d[6..9] + "-" + d[9..]
  {
  }

  /** The mask written out by the number of digits kept. */
  lemma CpfMaskShape(s: string)
    ensures var d := FirstDigits(s, 11);
      && (|d| <= 3 ==> FormatCpf(s) == d)
      && (3 < |d| <= 6 ==> FormatCpf(s) == d[..3] + "." + d[3..])
      && (6 < |d| <= 9 ==> FormatCpf(s) == d[..3] + "." + d[3..6] + "." + d[6..])
      && (9 < |d| ==> FormatCpf(s) == d[..3] + "." + d[3..6] + "." + d[6..9] + "-" + d[9..])
  {
    CpfMaskCases(FirstDigits(s, 11));
  }

  lemma KeepDigitsAround(a: string, sep: char, b: string)
    requires !IsDigit(sep)
    ensures KeepDigits(a + [sep] + b) == KeepDigits(a) + KeepDigits(b)
  {
    SelectAppend(a + [sep], b, IsDigit);
    SelectAppend(a, [sep], IsDigit);
    assert Select([sep], IsDigit) == [];
  }

  lemma KeepDigitsSlices(d: string, i: nat, j: nat)
    requires AllDigits(d) && i <= j <= |d|
    ensures KeepDigits(d[i..j]) == d[i..j]
    ensures i == 0 ==> KeepDigits(d[..j]) == d[..j]
    ensures j == |d| ==> KeepDigits(d[i..]) == d[i..]
  {
    KeepDigitsOfDigits(d[i..j]);
    assert d[..j] == d[0..j] && d[i..] == d[i..|d|];
  }

  /** Two runs of digits around a separator keep their digits. */
  lemma KeepDigitsJoin(a: string, sep: char, b: string)
    requires AllDigits(a) && AllDigits(b) && !IsDigit(sep)
    ensures KeepDigits(a + [sep] + b) == a + b
  {
    KeepDigitsAround(a, sep, b);
    KeepDigitsOfDigits(a);
    KeepDigitsOfDigits(b);
  }

  lemma KeepCpfDigits6(d: string)
    requires AllDigits(d) && 3 < |d|
    ensures KeepDigits(d[..3] + "." + d[3..]) == d
  {
    KeepDigitsJoin(d[..3], '.', d[3..]);
    assert d[..3] + d[3..] == d;
  }

  lemma KeepCpfDigits9(d: string)
    requires AllDigits(d) && 6 < |d|
    ensures KeepDigits(d[..3] + "." + d[3..6] + "." + d[6..]) == d
  {
    var front := d[..6];
    assert front[..3] == d[..3] && front[3..] == d[3..6];
    KeepCpfDigits6(front);
    KeepDigitsAround(d[..3] + "." + d[3..6], '.', d[6..]);
    KeepDigitsOfDigits(d[6..]);
    assert front + d[6..] == d;
  }

  lemma KeepCpfDigits11(d: string)
    requires AllDigits(d) && 9 < |d|
    ensures KeepDigits(d[..3] + "." + d[3..6] + "." + d[6..9] + "-" + d[9..]) == d
  {
    var front := d[..9];
    assert front[..3] == d[..3] && front[3..6] == d[3..6] && front[6..] == d[6..9];
    KeepCpfDigits9(front);
    KeepDigitsAround(d[..3] + "." + d[3..6] + "." + d[6..9], '-', d[9..]);
    KeepDigitsOfDigits(d[9..]);
    assert front + d[9..] == d;
  }

  /** The digits of the mask of at most eleven digits are those digits. */
  lemma KeepDigitsCpfMask(d: string)
    requires AllDigits(d) && |d| <= 11
    ensures KeepDigits(CpfMask(d)) == d
  {
    CpfMaskCases(d);
    if |d| <= 3 {
      KeepDigitsOfDigits(d);
    } else if |d| <= 6 {
      KeepCpfDigits6(d);
    } else if |d| <= 9 {
      KeepCpfDigits9(d);
    } else {
      KeepCpfDigits11(d);
    }
  }

  /** Unmasking a formatted CPF gives back the first eleven digits. */
  lemma UnmaskFormatCpf(s: string)
    ensures UnmaskCpf(FormatCpf(s)) == FirstDigits(s, 11)
  {
    KeepDigitsCpfMask(FirstDigits(s, 11));
  }

  /** Formatting an already formatted CPF changes nothing. */
  lemma FormatCpfIdempotent(s: string)
    ensures FormatCpf(FormatCpf(s)) == FormatCpf(s)
  {
    UnmaskFormatCpf(s);
  }

  /** The CEP mask applied to at most eight digits: 00000-000. */
  function CepMask(d: string): string
    requires |d| <= 8
  {
    if d == "" then "" else if |d| <= 5 then d else d[..5] + "-" + d[5..]
  }

  /** `formatCep` */
  function FormatCep(s: string): string { CepMask(FirstDigits(s, 8)) }

  /** `unmaskCep` */
  function UnmaskCep(s: string): string { FirstDigits(s, 8) }

  /** Unmasking a formatted CEP gives back the first eight digits. */
  lemma UnmaskFormatCep(s: string)
    ensures UnmaskCep(FormatCep(s)) == FirstDigits(s, 8)
  {
    var d := FirstDigits(s, 8);
    KeepDigitsOfDigits(d);
    if |d| > 5 {
      KeepDigitsAround(d[..5], '-', d[5..]);
      KeepDigitsSlices(d, 0, 5);
      KeepDigitsSlices(d, 5, |d|);
      assert d[..5] + d[5..] == d;
    }
  }

  /** A formatted CEP is at most nine characters, with the dash at index 5
      exactly when more than five digits were kept. */
  lemma FormatCepShape(s: string)
    ensures |FormatCep(s)| <= 9
    ensures |FirstDigits(s, 8)| > 5 <==> |FormatCep(s)| > 5 && FormatCep(s)[5] == '-'
  {
  }

  lemma FormatCepIdempotent(s: string)
    ensures FormatCep(FormatCep(s)) == FormatCep(s)
  {
    UnmaskFormatCep(s);
  }

  /** The address fields shown in the address line, in order. */
  const AddressKeys: seq<string> := ["logradouro", "bairro", "localidade", "uf"]

  /** Each value written as text, in order. */
  function Texts(vs: seq<Value>): (r: seq<string>)
    ensures |r| == |vs|
  {
    if vs == [] then [] else [ToText(vs[0])] + Texts(vs[1..])
  }

  lemma {:induction false} TextsAppend(a: seq<Value>, b: seq<Value>)
    ensures Texts(a + b) == Texts(a) + Texts(b)
  {
    if a == [] {
      assert a + b == b;
    } else {
      assert (a + b)[1..] == a[1..] + b;
      TextsAppend(a[1..], b);
    }
  }

  /** The text of the field `key` of `addr` when it is truthy, else nothing. */
  function AddressPart(addr: Value, key: string): seq<string> {
    if Truthy(Get(addr, key)) then [ToText(Get(addr, key))] else []
  }

  /** The texts of the truthy address fields, in order
      (`[…].filter(Boolean)`, each written with `String`). */
  function AddressParts(addr: Value): (r: seq<string>)
    ensures |r| <= |AddressKeys|
    ensures r == AddressPart(addr, "logradouro") + AddressPart(addr, "bairro")
      + AddressPart(addr, "localidade") + AddressPart(addr, "uf")
  {
    FilteredParts(addr);
    Texts(Filter(Fields(addr, AddressKeys), Truthy))
  }

  /** Filtering the four fields and writing each out is pushing them one by one. */
  lemma FilteredParts(addr: Value)
    ensures Texts(Filter(Fields(addr, AddressKeys), Truthy)) == AddressPart(addr, "logradouro")
      + AddressPart(addr, "bairro") + AddressPart(addr, "localidade") + AddressPart(addr, "uf")
  {
    var t0, t1, t2, t3 := Get(addr, "logradouro"), Get(addr, "bairro"), Get(addr, "localidade"), Get(addr, "uf");
    assert Fields(addr, AddressKeys) == [t0] + [t1] + [t2] + [t3];
    assert Texts(Filter([], Truthy)) == [];
    PushStep([], t0);
    assert [] + [t0] == [t0];
    var p0 := AddressPart(addr, "logradouro");
    assert Texts(Filter([t0], Truthy)) == p0;
    PushStep([t0], t1);
    var p1 := p0 + AddressPart(addr, "bairro");
    assert Texts(Filter([t0] + [t1], Truthy)) == p1;
    PushStep([t0] + [t1], t2);
    var p2 := p1 + AddressPart(addr, "localidade");
    assert Texts(Filter([t0] + [t1] + [t2], Truthy)) == p2;
    PushStep([t0] + [t1] + [t2], t3);
  }

  /** The address line built when a client is loaded. */
  function AddressLine(addr: Value): string {
    Join(AddressParts(addr), ", ")
  }

  /** The parts with the text of `v` appended when `v` is truthy. */
  function PushIfTruthy(parts: seq<string>, v: Value): seq<string> {
    if Truthy(v) then parts + [ToText(v)] else parts
  }

  /** The address line built after a postal-code lookup, one `push` per
      truthy field. */
  function PushedAddressLine(addr: Value): string {
    var parts := PushIfTruthy([], Get(addr, "logradouro"));
    var parts := PushIfTruthy(parts, Get(addr, "bairro"));
    var parts := PushIfTruthy(parts, Get(addr, "localidade"));
    var parts := PushIfTruthy(parts, Get(addr, "uf"));
    Join(parts, ", ")
  }

  /** Pushing the truthy values one by one collects the texts of the filtered values. */
  lemma PushStep(vs: seq<Value>, v: Value)
    ensures Texts(Filter(vs + [v], Truthy)) == PushIfTruthy(Texts(Filter(vs, Truthy)), v)
  {
    FilterAppend(vs, [v], Truthy);
    TextsAppend(Filter(vs, Truthy), Filter([v], Truthy));
    assert Filter([v], Truthy) == (if Truthy(v) then [v] else []) + Filter([], Truthy);
    assert Texts([v]) == [ToText(v)];
  }

  /** The two ways of building the address line agree. */
  lemma AddressLinesAgree(addr: Value)
    ensures AddressLine(addr) == PushedAddressLine(addr)
  {
    var p0 := PushIfTruthy([], Get(addr, "logradouro"));
    assert p0 == AddressPart(addr, "logradouro");
    var p1 := PushIfTruthy(p0, Get(addr, "bairro"));
    assert p1 == p0 + AddressPart(addr, "bairro");
    var p2 := PushIfTruthy(p1, Get(addr, "localidade"));
    assert p2 == p1 + AddressPart(addr, "localidade");
    assert PushIfTruthy(p2, Get(addr, "uf")) == AddressParts(addr);
  }

  /** The CPF's digits read as a number, or null when it has no digits. */
  function CpfNumber(cpf: Value): (r: Value)
    ensures r == Null <==> UnmaskCpf(ToText(Or(cpf, Str("")))) == ""
  {
    var raw := UnmaskCpf(ToText(Or(cpf, Str(""))));
    if raw == "" then Null else Num(DigitsValue(raw))
  }

  /** The fields of the client form. An absent field is `Undefined`. */
  datatype Form = Form(
    id: Value, cpf: Value, name: Value, midName: Value,
    endereco: Value, numero: Value, cep: Value, salvarComo: Value)

  /** The object `salvar` sends. Each alias field holds the same value as
      the field it aliases (`alias` and `complement` as `saveAs`, `nome` as
      `firstName`, `sobrenome` and `mid_name` as `lastName`); an absent field
      is `Undefined`. */
  datatype Payload = Payload(
    cpf: Value, id: Value, name: Value, midName: Value, salvarComo: Value,
    saveAs: Value, firstName: Value, fullName: Value, lastName: Value,
    address: Value, addressNumber: Value)

  /** The payload for a form whose CPF and address are set, with no client
      stored in the browser. */
  function SavePayload(f: Form, foundAddress: Value): Payload {
    var fullName := Trim(ToText(f.name) + (if Truthy(f.midName) then " " + ToText(f.midName) else ""));
    var address :=
      if Truthy(foundAddress) then foundAddress
      else if Truthy(f.cep) || Truthy(f.endereco) then Obj(map["cep" := f.cep, "logradouro" := f.endereco])
      else Undefined;
    Payload(
      cpf := CpfNumber(f.cpf),
      id := if !IsNullish(f.id) then f.id else Undefined,
      name := f.name,
      midName := f.midName,
      salvarComo := f.salvarComo,
      saveAs := if Truthy(f.salvarComo) then f.salvarComo else Undefined,
      firstName := if Truthy(f.name) then f.name else Undefined,
      fullName := if Truthy(f.name) then Str(fullName) else Undefined,
      lastName := if Truthy(f.midName) then f.midName else Undefined,
      address := address,
      addressNumber := if Truthy(foundAddress) || Truthy(f.cep) || Truthy(f.endereco) then f.numero else Undefined)
  }

  /** The payload carries the CPF as a number, the names as typed, the
      aliases only when truthy, and the id only when it is set. */
  lemma SavePayloadNames(f: Form, foundAddress: Value)
    ensures var r := SavePayload(f, foundAddress);
      && r.cpf == CpfNumber(f.cpf) && r.name == f.name && r.midName == f.midName && r.salvarComo == f.salvarComo
      && r.id == (if IsNullish(f.id) then Undefined else f.id)
      && r.saveAs == (if Truthy(f.salvarComo) then f.salvarComo else Undefined)
      && r.firstName == (if Truthy(f.name) then f.name else Undefined)
      && r.lastName == (if Truthy(f.midName) then f.midName else Undefined)
      && (Truthy(f.name) ==> r.fullName.Str?)
  {
  }

  /** The payload's address is the one found, else the CEP and street when
      either is set, else none; the number goes with any address. */
  lemma SavePayloadAddress(f: Form, foundAddress: Value)
    ensures var r := SavePayload(f, foundAddress);
      && (Truthy(foundAddress) ==> r.address == foundAddress && r.addressNumber == f.numero)
      && (!Truthy(foundAddress) && (Truthy(f.cep) || Truthy(f.endereco)) ==>
            r.address == Obj(map["cep" := f.cep, "logradouro" := f.endereco]) && r.addressNumber == f.numero)
      && (!Truthy(foundAddress) && !Truthy(f.cep) && !Truthy(f.endereco) ==>
            r.address == Undefined && r.addressNumber == Undefined)
  {
  }

  /** The form once a truthy lookup reply `addr` for the digits `cep` has
      filled it: the address line, then the CEP formatted from the reply's
      own `cep`, or from the digits looked up when the reply has none. */
  function FilledForm(f: Form, addr: Value, cep: string): Form {
    f.(endereco := Str(PushedAddressLine(addr)), cep := Str(FormatCep(ToText(Or(Get(addr, "cep"), Str(cep))))))
  }

  function CepDigits(cep: Value): string { KeepDigits(ToText(Or(cep, Str("")))) }

  class Perfil {
    var form: Form
    var foundAddress: Value
    var saving: bool

    constructor ()
      ensures form == Form(Undefined, Undefined, Undefined, Undefined, Undefined, Undefined, Undefined, Undefined)
      ensures foundAddress == Null && !saving
    {
      form := Form(Undefined, Undefined, Undefined, Undefined, Undefined, Undefined, Undefined, Undefined);
      foundAddress := Null;
      saving := false;
    }

    /** Returns the object handed to the save call, or `None` when a required
        field is empty and nothing is sent. */
    method Salvar() returns (sent: Option<Payload>)
      modifies this
      ensures !Truthy(form.cpf) || !Truthy(form.endereco) ==> sent.None? && saving == old(saving)
      ensures Truthy(form.cpf) && Truthy(form.endereco) ==> sent == Some(SavePayload(form, foundAddress)) && saving
      ensures form == old(form) && foundAddress == old(foundAddress)
    {
      if !Truthy(form.cpf) {
        return None;
      }
      if !Truthy(form.endereco) {
        return None;
      }
      saving := true;
      sent := Some(SavePayload(form, foundAddress));
    }

    /** Looks the postal code up when it has at least eight digits; `response`
        is the lookup's answer, `None` when it fails. Returns the code looked up. */
    method OnCepChange(response: Option<Value>) returns (lookedUp: Option<string>)
      modifies this
      ensures lookedUp == (if |CepDigits(old(form.cep))| < 8 then None else Some(CepDigits(old(form.cep))))
      ensures form == (if lookedUp.Some? && response.Some? && Truthy(response.value)
                       then FilledForm(old(form), response.value, lookedUp.value) else old(form))
      ensures foundAddress == (if lookedUp.Some? && response.Some? && Truthy(response.value)
                               then response.value else old(foundAddress))
      ensures saving == old(saving)
    {
      var cep := CepDigits(form.cep);
      if cep == "" || |cep| < 8 {
        return None;
      }
      lookedUp := Some(cep);
      if response.Some? {
        OnCepFound(response.value, cep);
      }
    }

    /** The lookup's reply `addr` for the digits `cep`: a truthy reply fills
        the address line, keeps the address and formats the CEP. */
    method OnCepFound(addr: Value, cep: string)
      modifies this
      ensures form == (if Truthy(addr) then FilledForm(old(form), addr, cep) else old(form))
      ensures foundAddress == (if Truthy(addr) then addr else old(foundAddress))
      ensures saving == old(saving)
    {
      if Truthy(addr) {
        form := form.(endereco := Str(PushedAddressLine(addr)));
        foundAddress := addr;
        form := form.(cep := Str(FormatCep(ToText(Or(Get(addr, "cep"), Str(cep))))));
      }
    }

    /** On focus the CPF field shows its digits only. */
    method OnCpfFocus()
      modifies this
      ensures form == old(form).(cpf := Str(UnmaskCpf(ToText(Or(old(form.cpf), Str(""))))))
      ensures foundAddress == old(foundAddress) && saving == old(saving)
    {
      form := form.(cpf := Str(FirstDigits(ToText(Or(form.cpf, Str(""))), 11)));
    }

    /** On blur the mask is applied again. */
    method OnCpfBlur()
      modifies this
      ensures form == old(form).(cpf := Str(FormatCpf(ToText(Or(old(form.cpf), Str(""))))))
      ensures foundAddress == old(foundAddress) && saving == old(saving)
    {
      form := form.(cpf := Str(FormatCpf(FirstDigits(ToText(Or(form.cpf, Str(""))), 11))));
      assert FirstDigits(FirstDigits(ToText(Or(old(form.cpf), Str(""))), 11), 11) == FirstDigits(ToText(Or(old(form.cpf), Str(""))), 11) by {
        KeepDigitsOfDigits(FirstDigits(ToText(Or(old(form.cpf), Str(""))), 11));
      }
    }
  }

  /** Focusing and then leaving the CPF field shows the formatted CPF. */
  lemma FocusThenBlur(s: string)
    ensures FormatCpf(UnmaskCpf(s)) == FormatCpf(s)
  {
    KeepDigitsOfDigits(FirstDigits(s, 11));
  }
}
