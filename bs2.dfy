/** The Bs2 bank codec: own number, free field, its parser, the bank's own
    modulo-11 routine and the barcode. */
module BancoBs2 {
  import opened Php
  import opened Util
  import opened Boleto
  import CheckDigit

  const NossoNumeroMask := "##########-#"

  /** parseCampoLivre: a purely positional split of a free field into
      agencia (0..4), contaCorrente (4..14), nossoNumero (14..24),
      nossoNumeroDv (24..25) and nossoNumeroFull (14..); the other five keys
      are always null. */
  function ParseCampoLivre(campoLivre: string): (r: AccountFields)
    ensures r.convenio == None && r.agenciaDv == None && r.codigoCliente == None
    ensures r.carteira == None && r.contaCorrenteDv == None
    ensures |campoLivre| >= 14 ==> r.agencia + r.contaCorrente + r.nossoNumeroFull == campoLivre
    ensures |campoLivre| <= 25 ==> r.nossoNumeroFull == r.nossoNumero + r.nossoNumeroDv
    ensures |campoLivre| >= 14 ==> |r.agencia| == 4 && |r.contaCorrente| == 10
    ensures |campoLivre| >= 24 ==> r.nossoNumero == r.nossoNumeroFull[..10]
    ensures |campoLivre| >= 25 ==> r.nossoNumeroDv == r.nossoNumeroFull[10..11]
    ensures |campoLivre| <= 24 ==> r.nossoNumeroDv == ""
    ensures |campoLivre| == 25 ==>
      |r.agencia| == 4 && |r.contaCorrente| == 10 && |r.nossoNumero| == 10 && |r.nossoNumeroDv| == 1
  {
    AccountFields(
      convenio := None,
      agenciaDv := None,
      codigoCliente := None,
      carteira := None,
      nossoNumero := Substr(campoLivre, 14, 10),
      nossoNumeroDv := Substr(campoLivre, 24, 1),
      nossoNumeroFull := SubstrFrom(campoLivre, 14),
      agencia := Substr(campoLivre, 0, 4),
      contaCorrente := Substr(campoLivre, 4, 10),
      contaCorrenteDv := None)
  }

  class Bs2 {
    /** Document fields, fixed at construction. */
    const codigoBanco: string
    const moeda: string
    /** The due-date factor, computed from the due date by the surrounding boleto. */
    const fatorVencimento: string
    /** The amount as the digits handed to numberFormatGeral. */
    const valor: string
    const conta: string
    const numero: string
    /** The required fields the inherited validation checks. */
    const camposObrigatorios: seq<string>
    /** CalculoDV::bs2NossoNumero, whose body is not part of this model. */
    const bs2NossoNumero: string -> string

    /** Write-once caches; "" (or "0") means unset. */
    var campoLivre: string
    var campoCodigoBarras: string

    constructor (codigoBanco: string, moeda: string, fatorVencimento: string, valor: string,
                 conta: string, numero: string, camposObrigatorios: seq<string>,
                 bs2NossoNumero: string -> string, campoLivre: string, campoCodigoBarras: string)
      ensures this.codigoBanco == codigoBanco && this.moeda == moeda
      ensures this.fatorVencimento == fatorVencimento && this.valor == valor
      ensures this.conta == conta && this.numero == numero
      ensures this.camposObrigatorios == camposObrigatorios && this.bs2NossoNumero == bs2NossoNumero
      ensures this.campoLivre == campoLivre && this.campoCodigoBarras == campoCodigoBarras
    {
      this.codigoBanco := codigoBanco;
      this.moeda := moeda;
      this.fatorVencimento := fatorVencimento;
      this.valor := valor;
      this.conta := conta;
      this.numero := numero;
      this.camposObrigatorios := camposObrigatorios;
      this.bs2NossoNumero := bs2NossoNumero;
      this.campoLivre := campoLivre;
      this.campoCodigoBarras := campoCodigoBarras;
    }

    /** gerarNossoNumero: the document number zero-padded to 10 places, followed by
        the DV that CalculoDV::bs2NossoNumero gives for those 10 places. */
    function GerarNossoNumero(): (r: string)
      ensures |r| == 10 + |bs2NossoNumero(Pad(numero, 10))|
      ensures r[..10] == Pad(numero, 10) && r[10..] == bs2NossoNumero(Pad(numero, 10))
      ensures |numero| <= 10 ==> r[10 - |numero|..10] == numero
    {
      var n := Pad(numero, 10);
      n + bs2NossoNumero(n)
    }

    /** getNossoNumeroBoleto: the own number under the mask "##########-#"; it
        formats exactly when the DV is one character. */
    function NossoNumeroBoleto(): (r: Option<string>)
      ensures r.Some? <==> |bs2NossoNumero(Pad(numero, 10))| == 1
      ensures r.Some? ==> r.value == Pad(numero, 10) + "-" + bs2NossoNumero(Pad(numero, 10))
      ensures r.Some? ==> Unmask(r.value, NossoNumeroMask) == GerarNossoNumero()
    {
      MaskTenDashOne();
      var nn := GerarNossoNumero();
      if |nn| == 11 then MaskShape(nn); Mask(nn, NossoNumeroMask) else Mask(nn, NossoNumeroMask)
    }

    /** The free field as getCampoLivre builds it: "001", the account padded to 10,
        the document number padded to 11, "8" -- 25 positions in all. */
    function CampoLivreCalculado(): (r: string)
      ensures |r| == 25 && IsSet(r)
      ensures r[..3] == "001" && r[3..13] == Pad(conta, 10)
      ensures r[13..24] == Pad(numero, 11) && r[24] == '8'
    {
      "001" + Pad(conta, 10) + Pad(numero, 11) + "8"
    }

    /** The free field getCampoLivre returns given the cache's content. */
    function CampoLivreFrom(cached: string): (r: string)
      ensures IsSet(r)
      ensures IsSet(cached) ==> r == cached
      ensures !IsSet(cached) ==> r == CampoLivreCalculado()
    {
      if IsSet(cached) then cached else CampoLivreCalculado()
    }

    /** The 43-position code that getCodigoBarras checks and splices, for a free field. */
    function Codigo(cl: string): (r: string)
      ensures |r| == 13 + |moeda| + |fatorVencimento| + |cl|
      ensures r[13 + |moeda| + |fatorVencimento|..] == cl
    {
      Boleto.Codigo(codigoBanco, moeda, fatorVencimento, valor, cl)
    }

    /** The barcode for a free field: the code with modulo11's default-mode digit
        (always 1..9) inserted at position 4; removing it gives the code back. */
    function CodigoBarras(cl: string): (r: string)
      ensures |r| == |Codigo(cl)| + 1
      ensures r[..4] + r[5..] == Codigo(cl)
      ensures IsDigit(r[4]) && r[4] != '0'
      ensures CastDigit(r[4]) == CheckDigit.Modulo11(CheckDigit.ResetOnEqual, Codigo(cl), 2, 9, 0, 0)
    {
      var codigo := Codigo(cl);
      var dv := CheckDigit.Modulo11(CheckDigit.ResetOnEqual, codigo, 2, 9, 0, 0);
      CheckDigit.DefaultModeIsDigit(CheckDigit.ResetOnEqual, codigo, 2, 9, 0);
      Splice(codigo, IntToString(dv))
    }

    /** modulo11: the weighted sum runs from the last character to the first; the
        weight equal to base is reset to 1 before the increment. */
    method Modulo11(n: string, factor: int, base: int, x10: int, resto10: int) returns (r: int)
      ensures r == CheckDigit.Modulo11(CheckDigit.ResetOnEqual, n, factor, base, x10, resto10)
    {
      var sum := 0;
      var f := factor;
      var i := |n|;
      assert n[..i] == n;
      while i > 0
        invariant 0 <= i <= |n|
        invariant f == CheckDigit.Weight(CheckDigit.ResetOnEqual, factor, base, |n| - i)
        invariant sum + CheckDigit.WeightedSum(CheckDigit.ResetOnEqual, n[..i], factor, base, |n| - i)
               == CheckDigit.WeightedSum(CheckDigit.ResetOnEqual, n, factor, base, 0)
      {
        assert n[..i][..i - 1] == n[..i - 1];
        var digit := CastDigit(n[i - 1]);
        sum := sum + digit * f;
        if f == base {
          f := 1;
        }
        f := f + 1;
        i := i - 1;
      }
      if x10 == 0 {
        sum := sum * 10;
        var digito := Rem(sum, 11);
        if digito == 10 {
          digito := resto10;
        }
        if digito == 0 || digito > 9 {
          digito := 1;
        }
        return digito;
      }
      r := Rem(sum, 11);
    }

    /** getCampoLivre: a set cache is returned untouched; otherwise the free field is
        built, stored and returned. Either way the cache is set afterwards. */
    method GetCampoLivre() returns (r: string)
      modifies this`campoLivre
      ensures r == campoLivre && campoLivre == CampoLivreFrom(old(campoLivre))
      ensures old(IsSet(campoLivre)) ==> campoLivre == old(campoLivre)
      ensures IsSet(campoLivre)
    {
      if IsSet(campoLivre) {
        return campoLivre;
      }
      var cl := "001";
      cl := cl + Pad(conta, 10);
      cl := cl + Pad(numero, 11);
      cl := cl + "8";
      campoLivre := cl;
      r := campoLivre;
    }

    /** getCodigoBarras: a set cache is returned untouched; blank required fields
        fail before anything is stored; otherwise the barcode is built, stored and
        returned. */
    method GetCodigoBarras(blank: set<string>) returns (r: Outcome)
      modifies this`campoLivre, this`campoCodigoBarras
      ensures old(IsSet(campoCodigoBarras)) ==>
        r == Barcode(old(campoCodigoBarras)) && unchanged(this)
      ensures !old(IsSet(campoCodigoBarras)) && MissingFields(camposObrigatorios, blank) != [] ==>
        r == MissingFieldError(MissingFields(camposObrigatorios, blank)) && unchanged(this)
      ensures !old(IsSet(campoCodigoBarras)) && MissingFields(camposObrigatorios, blank) == [] ==>
        campoLivre == CampoLivreFrom(old(campoLivre)) &&
        campoCodigoBarras == CodigoBarras(campoLivre) && r == Barcode(campoCodigoBarras)
      ensures r.Barcode? ==> IsSet(campoCodigoBarras) && r.code == campoCodigoBarras
    {
      if IsSet(campoCodigoBarras) {
        return Barcode(campoCodigoBarras);
      }
      var missing := MissingFields(camposObrigatorios, blank);
      if missing != [] {
        return MissingFieldError(missing);
      }
      var cl := GetCampoLivre();
      var codigo := Pad(codigoBanco, 3) + moeda + fatorVencimento + Pad(valor, 10) + cl;
      var dv := Modulo11(codigo, 2, 9, 0, 0);
      campoCodigoBarras := Substr(codigo, 0, 4) + IntToString(dv) + SubstrFrom(codigo, 4);
      r := Barcode(campoCodigoBarras);
    }
  }

  lemma MaskTenDashOne()
    ensures Placeholders(NossoNumeroMask) == 11
  {
    var hashes10 := seq(10, _ => '#');
    assert NossoNumeroMask == hashes10 + ("-" + "#");
    PlaceholdersOfRun(10);
    PlaceholdersAppend("-", "#");
    PlaceholdersAppend(hashes10, "-" + "#");
  }

  lemma MaskIsRunDashOne()
    ensures NossoNumeroMask == seq(10, _ => '#') + (['-'] + "#")
  {
  }

  /** The display mask puts a dash before the last of 11 characters. */
  lemma MaskShape(nn: string)
    requires |nn| == 11
    ensures Mask(nn, NossoNumeroMask) == Some(nn[..10] + "-" + nn[10..])
  {
    MaskIsRunDashOne();
    RunDashOne(nn);
  }

  /** With a one-character currency and a four-digit due-date factor the Bs2 barcode
      of its own free field has 44 positions, the check digit at index 4. */
  lemma BarcodeWidth(b: Bs2)
    requires |b.moeda| == 1 && |b.fatorVencimento| == 4
    ensures |b.CodigoBarras(b.CampoLivreCalculado())| == 44
    ensures |b.Codigo(b.CampoLivreCalculado())| == 43
  {
  }

  /** The parser does not invert the encoder: applied to the free field Bs2 builds,
      "agencia" holds "001" and the first account digit, and "nossoNumeroDv" the
      constant 8; but "nossoNumero" is the document number padded to 10 places,
      the first 10 places of the own number, whenever the number fits in 10 digits. */
  lemma ParseOwnCampoLivre(b: Bs2)
    ensures ParseCampoLivre(b.CampoLivreCalculado()).agencia == "001" + Pad(b.conta, 10)[..1]
    ensures ParseCampoLivre(b.CampoLivreCalculado()).contaCorrente == Pad(b.conta, 10)[1..] + Pad(b.numero, 11)[..1]
    ensures ParseCampoLivre(b.CampoLivreCalculado()).nossoNumeroDv == "8"
    ensures |b.numero| <= 10 ==>
      ParseCampoLivre(b.CampoLivreCalculado()).nossoNumero == Pad(b.numero, 10) == b.GerarNossoNumero()[..10]
  {
    var cl := b.CampoLivreCalculado();
    var p := ParseCampoLivre(cl);
    assert p.agencia == cl[..4];
    assert p.contaCorrente == cl[4..14];
    assert p.nossoNumero == cl[14..24] == Pad(b.numero, 11)[1..];
    if |b.numero| <= 10 {
      PadWider(b.numero, 10);
    }
  }
}
