/** The Efi bank codec: the own number taken verbatim, the free field
    DV(5) + own number(20), its (differently laid out) parser, the bank's own
    modulo-11 routine and the barcode with the fixed due-date factor "0000". */
module BancoEfi {
  import opened Php
  import opened Util
  import opened Boleto
  import CheckDigit

  /** The array returned by Efi::parseCampoLivre; the four keys this layout does not
      carry are always null (None). */
  datatype EfiFields = EfiFields(
    codigoCliente: Option<string>,
    agenciaDv: Option<string>,
    contaCorrente: Option<string>,
    contaCorrenteDv: Option<string>,
    carteira: string,
    agencia: string,
    modalidade: string,
    convenio: string,
    nossoNumero: string,
    nossoNumeroDv: string,
    nossoNumeroFull: string,
    parcela: string)

  /** parseCampoLivre: a purely positional split into carteira (0, 1), agencia (1, 4),
      modalidade (5, 2), convenio (7, 7), nossoNumero (14, 7), nossoNumeroDv (21, 1),
      nossoNumeroFull (14, 8) and parcela (22, 3). */
  function ParseCampoLivre(campoLivre: string): (r: EfiFields)
    ensures r.codigoCliente == None && r.agenciaDv == None
    ensures r.contaCorrente == None && r.contaCorrenteDv == None
    ensures r.nossoNumeroFull == r.nossoNumero + r.nossoNumeroDv
    ensures |campoLivre| == 25 ==>
      r.carteira + r.agencia + r.modalidade + r.convenio + r.nossoNumero + r.nossoNumeroDv + r.parcela
      == campoLivre
    ensures |campoLivre| == 25 ==>
      |r.carteira| == 1 && |r.agencia| == 4 && |r.modalidade| == 2 && |r.convenio| == 7 &&
      |r.nossoNumero| == 7 && |r.nossoNumeroDv| == 1 && |r.parcela| == 3
  {
    var r := EfiFields(
      codigoCliente := None,
      agenciaDv := None,
      contaCorrente := None,
      contaCorrenteDv := None,
      carteira := Substr(campoLivre, 0, 1),
      agencia := Substr(campoLivre, 1, 4),
      modalidade := Substr(campoLivre, 5, 2),
      convenio := Substr(campoLivre, 7, 7),
      nossoNumero := Substr(campoLivre, 14, 7),
      nossoNumeroDv := Substr(campoLivre, 21, 1),
      nossoNumeroFull := Substr(campoLivre, 14, 8),
      parcela := Substr(campoLivre, 22, 3));
    assert |campoLivre| == 25 ==>
      campoLivre == campoLivre[0..1] + campoLivre[1..5] + campoLivre[5..7] + campoLivre[7..14]
                    + campoLivre[14..21] + campoLivre[21..22] + campoLivre[22..25];
    r
  }

  /** The remap of getCodigoBarras: a remainder of 0, 10 or 11 becomes 1. */
  function Remap(resto: int): (dv: int)
    ensures resto in {0, 10, 11} ==> dv == 1
    ensures resto !in {0, 10, 11} ==> dv == resto
  {
    if resto in {0, 10, 11} then 1 else resto
  }

  class Efi {
    /** Document fields, fixed at construction. */
    const codigoBanco: string
    const moeda: string
    /** The amount as the digits handed to numberFormatGeral. */
    const valor: string
    const agencia: string
    const numero: string
    const convenio: string
    /** The required fields: the inherited ones followed by "convenio". */
    const camposObrigatorios: seq<string>

    /** Write-once caches; "" (or "0") means unset. */
    var campoLivre: string
    var campoCodigoBarras: string

    /** The constructor makes "convenio" a required field. */
    ghost predicate Valid() {
      "convenio" in camposObrigatorios
    }

    constructor (codigoBanco: string, moeda: string, valor: string, agencia: string,
                 numero: string, convenio: string, inheritedObrigatorios: seq<string>,
                 campoLivre: string, campoCodigoBarras: string)
      ensures Valid()
      ensures this.codigoBanco == codigoBanco && this.moeda == moeda && this.valor == valor
      ensures this.agencia == agencia && this.numero == numero && this.convenio == convenio
      ensures this.camposObrigatorios == inheritedObrigatorios + ["convenio"]
      ensures this.campoLivre == campoLivre && this.campoCodigoBarras == campoCodigoBarras
    {
      this.codigoBanco := codigoBanco;
      this.moeda := moeda;
      this.valor := valor;
      this.agencia := agencia;
      this.numero := numero;
      this.convenio := convenio;
      this.camposObrigatorios := inheritedObrigatorios + ["convenio"];
      this.campoLivre := campoLivre;
      this.campoCodigoBarras := campoCodigoBarras;
    }

    /** gerarNossoNumero and getNossoNumeroBoleto: the own number is the document
        number as given, shown without a mask. */
    function NossoNumeroBoleto(): (r: string)
      ensures r == numero
    {
      numero
    }

    /** getAgenciaCodigoBeneficiario: the agency, "/ ", and the agreement code
        zero-padded to 9 places, so that a code that fits ends the string. */
    function AgenciaCodigoBeneficiario(): (r: string)
      ensures |r| == |agencia| + 11
      ensures r[..|agencia|] == agencia && r[|agencia|..|agencia| + 2] == "/ "
      ensures |convenio| <= 9 ==> r[|r| - |convenio|..] == convenio
      ensures r[|agencia| + 2..] == Pad(convenio, 9)
    {
      agencia + "/ " + Pad(convenio, 9)
    }

    /** The blank fields isValid reports: "convenio" is blank exactly when the
        agreement code is empty; the inherited fields are blank as `blank` says. */
    function Missing(blank: set<string>): (r: seq<string>)
      ensures Valid() && convenio == "" ==> "convenio" in r
      ensures convenio != "" ==> "convenio" !in r
      ensures forall f :: f in r ==> f in camposObrigatorios
    {
      MissingFields(camposObrigatorios, (blank - {"convenio"}) + (if convenio == "" then {"convenio"} else {}))
    }

    /** The free field as getCampoLivre builds it: the modulo-11 digit of the own
        number padded to 20, itself padded to 5 places, then the padded own number.
        Since the digit is a single 1..9, the field starts with "0000". */
    function CampoLivreCalculado(): (r: string)
      ensures |r| == 25 && IsSet(r)
      ensures r[..4] == "0000" && IsDigit(r[4]) && r[4] != '0'
      ensures CastDigit(r[4]) == CheckDigit.Modulo11(CheckDigit.ResetAtOrAbove, Pad(numero, 20), 2, 9, 0, 0)
      ensures r[5..] == Pad(numero, 20)
    {
      var nn := Pad(numero, 20);
      var dv := CheckDigit.Modulo11(CheckDigit.ResetAtOrAbove, nn, 2, 9, 0, 0);
      CheckDigit.DefaultModeIsDigit(CheckDigit.ResetAtOrAbove, nn, 2, 9, 0);
      Pad(IntToString(dv), 5) + nn
    }

    /** The free field getCampoLivre returns given the cache's content. */
    function CampoLivreFrom(cached: string): (r: string)
      ensures IsSet(r)
      ensures IsSet(cached) ==> r == cached
      ensures !IsSet(cached) ==> r == CampoLivreCalculado()
    {
      if IsSet(cached) then cached else CampoLivreCalculado()
    }

    /** The 43-position code of getCodigoBarras, with the due-date factor "0000". */
    function Codigo(cl: string): (r: string)
      ensures |r| == 17 + |moeda| + |cl|
      ensures r[3 + |moeda|..7 + |moeda|] == "0000"
      ensures r[17 + |moeda|..] == cl
    {
      Boleto.Codigo(codigoBanco, moeda, "0000", valor, cl)
    }

    /** The barcode for a free field: the code with the remapped default-mode digit
        (1..9) at position 4; removing it gives the code back. */
    function CodigoBarras(cl: string): (r: string)
      ensures |r| == |Codigo(cl)| + 1
      ensures r[..4] + r[5..] == Codigo(cl)
      ensures IsDigit(r[4]) && r[4] != '0'
      ensures CastDigit(r[4]) == CheckDigit.Modulo11(CheckDigit.ResetAtOrAbove, Codigo(cl), 2, 9, 0, 0)
    {
      var semDV := Codigo(cl);
      var resto := CheckDigit.Modulo11(CheckDigit.ResetAtOrAbove, semDV, 2, 9, 0, 0);
      CheckDigit.DefaultModeIsDigit(CheckDigit.ResetAtOrAbove, semDV, 2, 9, 0);
      Splice(semDV, IntToString(Remap(resto)))
    }

    /** modulo11: the weighted sum runs from the last character to the first; a
        weight at or above base becomes 2, any other is incremented. */
    method Modulo11(n: string, factor: int, base: int, x10: int, resto10: int) returns (r: int)
      ensures r == CheckDigit.Modulo11(CheckDigit.ResetAtOrAbove, n, factor, base, x10, resto10)
    {
      var sum := 0;
      var f := factor;
      var i := |n| - 1;
      assert n[..|n|] == n;
      while i >= 0
        invariant -1 <= i < |n|
        invariant f == CheckDigit.Weight(CheckDigit.ResetAtOrAbove, factor, base, |n| - 1 - i)
        invariant sum + CheckDigit.WeightedSum(CheckDigit.ResetAtOrAbove, n[..i + 1], factor, base, |n| - 1 - i)
               == CheckDigit.WeightedSum(CheckDigit.ResetAtOrAbove, n, factor, base, 0)
      {
        assert n[..i + 1][..i] == n[..i];
        sum := sum + CastDigit(n[i]) * f;
        f := if f >= base then 2 else f + 1;
        i := i - 1;
      }
      if x10 == 0 {
        var dig := Rem(sum * 10, 11);
        if dig == 10 {
          dig := resto10;
        }
        if dig == 0 || dig > 9 {
          dig := 1;
        }
        return dig;
      }
      r := Rem(sum, 11);
    }

    /** getCampoLivre: a set cache is returned untouched; otherwise the free field is
        built, stored and returned. Either way the cache is set afterwards. */
    method GetCampoLivre() returns (r: string)
      modifies this`campoLivre
      ensures r == campoLivre && campoLivre == CampoLivreFrom(old(campoLivre))
      ensures old(IsSet(campoLivre)) ==> campoLivre == old(campoLivre)
      ensures IsSet(campoLivre)
    {
      if IsSet(campoLivre) {
        return campoLivre;
      }
      var nn := Pad(numero, 20);
      var dv := Modulo11(nn, 2, 9, 0, 0);
      var dvNN := Pad(IntToString(dv), 5);
      campoLivre := dvNN + nn;
      r := campoLivre;
    }

    /** getCodigoBarras: a set cache is returned untouched; blank required fields
        (an empty agreement code among them) fail before anything is stored;
        otherwise the barcode is built, stored and returned. */
    method GetCodigoBarras(blank: set<string>) returns (r: Outcome)
      requires Valid()
      modifies this`campoLivre, this`campoCodigoBarras
      ensures old(IsSet(campoCodigoBarras)) ==>
        r == Barcode(old(campoCodigoBarras)) && unchanged(this)
      ensures !old(IsSet(campoCodigoBarras)) && Missing(blank) != [] ==>
        r == MissingFieldError(Missing(blank)) && unchanged(this)
      ensures !old(IsSet(campoCodigoBarras)) && convenio == "" ==>
        r.MissingFieldError? && "convenio" in r.fields && unchanged(this)
      ensures !old(IsSet(campoCodigoBarras)) && Missing(blank) == [] ==>
        campoLivre == CampoLivreFrom(old(campoLivre)) &&
        campoCodigoBarras == CodigoBarras(campoLivre) && r == Barcode(campoCodigoBarras)
      ensures r.Barcode? ==> IsSet(campoCodigoBarras) && r.code == campoCodigoBarras
    {
      if IsSet(campoCodigoBarras) {
        return Barcode(campoCodigoBarras);
      }
      var missing := Missing(blank);
      if missing != [] {
        return MissingFieldError(missing);
      }
      var preCB := Pad(codigoBanco, 3) + moeda;
      var fator := "0000";
      var valorPad := Pad(valor, 10);
      var cl := GetCampoLivre();
      var semDV := preCB + fator + valorPad + cl;
      var resto := Modulo11(semDV, 2, 9, 0, 0);
      var dv := if resto in {0, 10, 11} then 1 else resto;
      campoCodigoBarras := Substr(semDV, 0, 4) + IntToString(dv) + SubstrFrom(semDV, 4);
      r := Barcode(campoCodigoBarras);
    }
  }

  /** The remap {0, 10, 11} -> 1 of getCodigoBarras never changes the result of the
      default-mode modulo11, which is already a digit 1..9. */
  lemma RemapIsIdentity(semDV: string)
    ensures Remap(CheckDigit.Modulo11(CheckDigit.ResetAtOrAbove, semDV, 2, 9, 0, 0))
         == CheckDigit.Modulo11(CheckDigit.ResetAtOrAbove, semDV, 2, 9, 0, 0)
  {
    CheckDigit.DefaultModeIsDigit(CheckDigit.ResetAtOrAbove, semDV, 2, 9, 0);
  }

  /** With a one-character currency the Efi barcode of its own free field has 44
      positions: bank, currency, DV, "0000", amount, free field. */
  lemma BarcodeWidth(b: Efi)
    requires |b.moeda| == 1
    ensures |b.CodigoBarras(b.CampoLivreCalculado())| == 44
    ensures b.CodigoBarras(b.CampoLivreCalculado())[5..9] == "0000"
  {
    var cl := b.CampoLivreCalculado();
    var c := b.Codigo(cl);
    var r := b.CodigoBarras(cl);
    assert r[5..9] == (r[..4] + r[5..])[4..8];
  }

  /** The parser does not invert the encoder: on the free field Efi builds,
      "carteira" is "0" and "agencia" is "000" followed by the check digit, while
      modalidade, convenio, nossoNumero, nossoNumeroDv and parcela together give back
      the own number padded to 20 places. */
  lemma ParseOwnCampoLivre(b: Efi)
    ensures ParseCampoLivre(b.CampoLivreCalculado()).carteira == "0"
    ensures ParseCampoLivre(b.CampoLivreCalculado()).agencia == "000" + b.CampoLivreCalculado()[4..5]
    ensures var p := ParseCampoLivre(b.CampoLivreCalculado());
      p.modalidade + p.convenio + p.nossoNumero + p.nossoNumeroDv + p.parcela == Pad(b.numero, 20)
  {
    var cl := b.CampoLivreCalculado();
    var p := ParseCampoLivre(cl);
    assert p.carteira == cl[..1] == "0";
    assert p.agencia == cl[1..5] == cl[1..4] + cl[4..5];
    assert cl[5..] == cl[5..7] + cl[7..14] + cl[14..21] + cl[21..22] + cl[22..25];
  }
}
