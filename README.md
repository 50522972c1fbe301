# Boleto bank codecs: Bs2, Efi and Sisprime

A Dafny model of three per-bank codecs of a Brazilian bank-slip (boleto) library.
Each codec derives the bank's own number (nosso número), builds the free field
(campo livre, barcode positions 20–44), parses a free field back into named parts,
and builds the barcode: bank code (3) + currency (1) + check digit + due-date factor
(4) + amount (10) + free field, with the check digit spliced in at 0-based index 4.
Bs2 and Efi each carry their own modulo-11 check-digit routine; Sisprime delegates
both of its check digits to routines outside the codec.

Layout of the project:

- `php.dfy` (`Php`): the PHP primitives the codecs rely on, with PHP semantics:
  truthiness of a string (`""` and `"0"` are both unset), `substr`, `(int)` of one
  character (non-digits become 0), the truncating `%`, integer-to-string.
- `util.dfy` (`Util`): zero padding to a fixed width (`Pad`, for
  `numberFormatGeral`) and display masks (`Mask`, for `maskString`), with lemmas on
  the shape of masked values.
- `checkdigit.dfy` (`CheckDigit`): the modulo-11 family as a specification. The only
  difference between the Bs2 and Efi routines, how the weight moves on after each
  digit, is the `WeightRule` parameter; `Weight`, `WeightedSum`, `DigitOf` and
  `Modulo11` define the result, and the lemmas state its properties.
- `boleto.dfy` (`Boleto`): the barcode outcome (`Barcode` or `MissingFieldError`),
  the record Bs2 and Sisprime parse into, the required-field check, the 43-position
  code and the check-digit splice.
- `bs2.dfy`, `efi.dfy`, `sisprime.dfy`: one module per bank, each with a class whose
  document fields are fixed at construction and whose two write-once caches,
  `campoLivre` and `campoCodigoBarras`, are updated by `GetCampoLivre` and
  `GetCodigoBarras`; the static `parseCampoLivre` is a module-level function.
  `Modulo11` of Bs2 and Efi is a method with the source's loop, proved equal to
  `CheckDigit.Modulo11` for its rule.

What the code does, recorded as it is:

- The parsers do not invert the encoders: parsing the free field a codec builds
  does not give back the fields it was built from. The `ParseOwnCampoLivre`
  lemmas state exactly what each parser returns on its own bank's free field.
  Bs2's "agencia" holds "001" and an account digit, but its "nossoNumero" is the
  document number padded to 10. Efi's parser reads a carteira/agencia/modalidade
  layout, yet its last five parts put back together give the 20-place own number.
  Sisprime's parser recovers the agency, the account with its DV and the full own
  number, but its "nossoNumero" and "nossoNumeroDv" cut the own number in the wrong
  places.
- Sisprime's free field is 14 + |own number| positions, 28 for a one-character DV,
  not the 25 the barcode layout calls for.
- The Bs2 and Efi weight rules agree when the start factor is at most base and base
  is at least 2. The second condition is needed: with base 1 the rules differ. Above
  base, the Bs2 weight never resets.
- The default-mode check digit is guaranteed to lie in 1..9 when the start factor
  and the substitute for 10 are not negative; with a negative factor or substitute
  it can be negative, because PHP's `%` keeps the dividend's sign and a negative
  remainder passes through the mapping unchanged.
- A cache holding `"0"` counts as unset, because PHP tests the caches by
  truthiness.

## Model

| member | source | states |
|---|---|---|
| `CheckDigit.DigitOf` | src/Boleto/Banco/Bs2.php:133-144 | for a non-negative sum and substitute the mapped digit is in 1..9; a remainder 1..9 is kept, a remainder 0 becomes 1; a remainder 10 becomes the substitute, which a 0 or anything above 9 turns into 1 (a negative substitute is returned as is); a negative remainder is returned unchanged |
| `CheckDigit.StandardWeights` | src/Boleto/Banco/Bs2.php:122-131 | with factor 2 and base 9 the k-th digit from the right gets weight 2 + k mod 8, i.e. 2,3,…,9,2,3,… (both rules) |
| `CheckDigit.DefaultModeIsDigit` | src/Boleto/Banco/Bs2.php:133-144 | x10 = 0 with non-negative factor and substitute always gives a digit in 1..9 |
| `CheckDigit.RawModeRange` | src/Boleto/Banco/Bs2.php:147 | x10 ≠ 0 returns the raw weighted sum mod 11, a value in 0..10 when the start factor is ≥ 0 (with a negative factor the truncating `%` can give a negative value) |
| `CheckDigit.AllZerosGiveOne` | src/Boleto/Banco/Bs2.php:133-142 | an all-zero digit string gives sum 0, so the default-mode result is 1 for any weights and substitute |
| `CheckDigit.WeightsAgree` | src/Boleto/Banco/Efi.php:133-136 | start factor ≤ base and base ≥ 2: the Bs2 and Efi rules give identical weights, none above base |
| `CheckDigit.WeightsDivergeAboveBase` | src/Boleto/Banco/Bs2.php:127-130 | start factor > base: the Bs2 weight never resets (factor + k) while the Efi weight is 2 after the first digit |
| `CheckDigit.EfiWeightInRange` | src/Boleto/Banco/Efi.php:135 | after the first digit the Efi weight lies in 2..base (start factor ≥ 1, base ≥ 2) |
| `CheckDigit.RulesAgree` | src/Boleto/Banco/Efi.php:130-146 | start factor ≤ base and base ≥ 2: the Bs2 and Efi modulo11 return the same value in both modes |
| `CheckDigit.StandardExample` | src/Boleto/Banco/Bs2.php:118-148 | "0000000123" with the standard parameters has weighted sum 16 and check digit 6 |
| `Boleto.MissingFields` | src/Boleto/Banco/Bs2.php:156-158 | the failure names exactly the required fields that are blank |
| `Boleto.Codigo` | src/Boleto/Banco/Bs2.php:159-163 | the code is bank(3) + currency + factor + amount(10) + free field, each at its position |
| `Boleto.Splice` | src/Boleto/Banco/Bs2.php:165 | the check digit sits at index 4 and deleting it gives back the code |
| `BancoBs2.ParseCampoLivre` | src/Boleto/Banco/Bs2.php:95-109 | five keys always null; agencia + contaCorrente + nossoNumeroFull is the input; agencia and contaCorrente are 4 and 10 places from 14 positions on; nossoNumero is the first 10 places of nossoNumeroFull and nossoNumeroDv its 11th place (empty on 24 positions or fewer); for up to 25 positions nossoNumeroFull = nossoNumero + nossoNumeroDv; part widths 4/10/10/1 on 25 positions |
| `BancoBs2.Bs2.GerarNossoNumero` | src/Boleto/Banco/Bs2.php:52-57 | the number padded to 10 places (ending with the number when it fits) followed by its DV |
| `BancoBs2.Bs2.NossoNumeroBoleto` | src/Boleto/Banco/Bs2.php:64-67 | the mask formats exactly when the DV is one character, showing number(10) + "-" + DV; removing the dash gives the own number |
| `BancoBs2.MaskTenDashOne` | src/Boleto/Banco/Bs2.php:66 | the mask "##########-#" has 11 placeholders |
| `BancoBs2.MaskShape` | src/Boleto/Banco/Bs2.php:66 | any 11 characters are shown as the first 10, "-", the last |
| `BancoBs2.Bs2.CampoLivreCalculado` | src/Boleto/Banco/Bs2.php:80-85 | "001" + account padded to 10 + number padded to 11 + "8": 25 positions, a set value |
| `BancoBs2.Bs2.CampoLivreFrom` | src/Boleto/Banco/Bs2.php:76-85 | a set cache is the free field; otherwise the built one |
| `BancoBs2.Bs2.Codigo` | src/Boleto/Banco/Bs2.php:159-163 | the code ends with the free field and has 13 + currency + factor + free-field positions |
| `BancoBs2.Bs2.CodigoBarras` | src/Boleto/Banco/Bs2.php:159-165 | the barcode is the code with modulo11's digit (1..9) at index 4; deleting it gives the code |
| `BancoBs2.Bs2.Modulo11` | src/Boleto/Banco/Bs2.php:118-148 | the loop computes `CheckDigit.Modulo11` under the reset-on-equal rule |
| `BancoBs2.Bs2.GetCampoLivre` | src/Boleto/Banco/Bs2.php:74-86 | a set cache is returned and nothing changes; otherwise the built free field is stored and returned; the cache is set afterwards |
| `BancoBs2.Bs2.GetCodigoBarras` | src/Boleto/Banco/Bs2.php:150-167 | a set cache is returned unchanged; blank required fields fail with nothing stored; otherwise the free field and barcode caches hold the free field and its barcode, which is returned |
| `BancoBs2.BarcodeWidth` | src/Boleto/Banco/Bs2.php:159-165 | with a 1-position currency and 4-position factor the code has 43 positions and the barcode 44 |
| `BancoBs2.ParseOwnCampoLivre` | src/Boleto/Banco/Bs2.php:80-108 | on Bs2's own free field: agencia = "001" + the first place of the padded account, contaCorrente = the other 9 places + the first place of the number padded to 11, nossoNumeroDv = "8", nossoNumero = number padded to 10 (= first 10 places of the own number) when it fits |
| `BancoEfi.ParseCampoLivre` | src/Boleto/Banco/Efi.php:73-88 | four keys always null; nossoNumeroFull = nossoNumero + nossoNumeroDv; on 25 positions the seven parts (widths 1/4/2/7/7/1/3) concatenate to the input |
| `BancoEfi.Remap` | src/Boleto/Banco/Efi.php:121 | 0, 10 and 11 become 1, anything else is kept |
| `BancoEfi.Efi.constructor` | src/Boleto/Banco/Efi.php:22-26 | "convenio" is appended to the inherited required fields |
| `BancoEfi.Efi.NossoNumeroBoleto` | src/Boleto/Banco/Efi.php:41-49 | the own number is the document number itself, shown unmasked |
| `BancoEfi.Efi.AgenciaCodigoBeneficiario` | src/Boleto/Banco/Efi.php:93-96 | agency + "/ " + the agreement code zero-padded (or cut) to exactly 9 places, which ends the string when it fits |
| `BancoEfi.Efi.Missing` | src/Boleto/Banco/Efi.php:109-111 | an empty agreement code is reported as the missing field "convenio"; a non-empty one never is |
| `BancoEfi.Efi.CampoLivreCalculado` | src/Boleto/Banco/Efi.php:60-63 | 25 positions: "0000", the modulo-11 digit (1..9) of the own number padded to 20, then that padded own number |
| `BancoEfi.Efi.CampoLivreFrom` | src/Boleto/Banco/Efi.php:56-63 | a set cache is the free field; otherwise the built one |
| `BancoEfi.Efi.Codigo` | src/Boleto/Banco/Efi.php:113-118 | the code carries the due-date factor "0000" and ends with the free field |
| `BancoEfi.Efi.CodigoBarras` | src/Boleto/Banco/Efi.php:113-123 | the barcode is the code with the digit (1..9) at index 4; deleting it gives the code |
| `BancoEfi.Efi.Modulo11` | src/Boleto/Banco/Efi.php:130-146 | the loop computes `CheckDigit.Modulo11` under the reset-at-or-above rule |
| `BancoEfi.Efi.GetCampoLivre` | src/Boleto/Banco/Efi.php:54-64 | a set cache is returned and nothing changes; otherwise the built free field is stored and returned |
| `BancoEfi.Efi.GetCodigoBarras` | src/Boleto/Banco/Efi.php:103-124 | a set cache is returned unchanged; an empty agreement code or another blank required field fails with nothing stored; otherwise both caches are filled and the barcode returned |
| `BancoEfi.RemapIsIdentity` | src/Boleto/Banco/Efi.php:120-121 | the remap never changes a default-mode modulo11 result |
| `BancoEfi.BarcodeWidth` | src/Boleto/Banco/Efi.php:113-123 | with a 1-position currency the barcode has 44 positions and "0000" at 5..9 |
| `BancoEfi.ParseOwnCampoLivre` | src/Boleto/Banco/Efi.php:60-88 | on Efi's own free field: carteira = "0", agencia = "000" + DV, and modalidade + convenio + nossoNumero + nossoNumeroDv + parcela = own number padded to 20 |
| `BancoSisprime.ParseCampoLivre` | src/Boleto/Banco/Sisprime.php:95-109 | five keys always null; agencia(4) + contaCorrente(10) + nossoNumeroFull is the input; nossoNumero is the first 10 places of nossoNumeroFull and nossoNumeroDv its 11th place (empty on 24 positions or fewer) |
| `BancoSisprime.Sisprime.GerarNossoNumero` | src/Boleto/Banco/Sisprime.php:52-60 | wallet padded to 3 + number padded to 10 + the DV of the padded agency, account(5), wallet, number |
| `BancoSisprime.Sisprime.NossoNumeroBoleto` | src/Boleto/Banco/Sisprime.php:67-70 | the mask formats exactly when the DV is one character, showing wallet + "/" + number + "-" + DV |
| `BancoSisprime.MaskFourteenPlaceholders` | src/Boleto/Banco/Sisprime.php:69 | the mask "###/##########-#" has 14 placeholders, matching 3 + 10 + 1 |
| `BancoSisprime.MaskShape` | src/Boleto/Banco/Sisprime.php:69 | any 14 characters are shown as 3, "/", 10, "-", 1 |
| `BancoSisprime.Sisprime.CampoLivreCalculado` | src/Boleto/Banco/Sisprime.php:82-85 | agency padded to 4 + account with DV padded to 10 + own number: 14 + own-number positions, 28 for a one-character DV |
| `BancoSisprime.Sisprime.CampoLivreFrom` | src/Boleto/Banco/Sisprime.php:79-85 | a set cache is the free field; otherwise the built one |
| `BancoSisprime.Sisprime.Codigo` | src/Boleto/Banco/Sisprime.php:127-131 | the code ends with the free field and has 13 + currency + factor + free-field positions |
| `BancoSisprime.Sisprime.CodigoBarras` | src/Boleto/Banco/Sisprime.php:127-134 | the barcode is the code with unicredCodigoBarra's DV at index 4; deleting it gives the code |
| `BancoSisprime.Sisprime.GetCampoLivre` | src/Boleto/Banco/Sisprime.php:77-86 | a set cache is returned and nothing changes; otherwise the built free field is stored and returned |
| `BancoSisprime.Sisprime.GetCodigoBarras` | src/Boleto/Banco/Sisprime.php:117-135 | a set cache is returned unchanged; blank required fields fail with nothing stored; otherwise both caches are filled and the barcode returned |
| `BancoSisprime.BarcodeWidth` | src/Boleto/Banco/Sisprime.php:127-134 | with a 1-position currency and 4-position factor the barcode has 18 + free-field + DV positions |
| `BancoSisprime.ParseOwnCampoLivre` | src/Boleto/Banco/Sisprime.php:82-108 | on Sisprime's own free field the parser returns the padded agency, the padded account with DV and the full own number, but nossoNumero = wallet + first 7 number digits and nossoNumeroDv = the 8th digit |

## Left out

- The inherited base boleto class is not part of this model. Its constructor, getters and `getNossoNumero` memoisation are left out. The bank code, currency, amount and agency are plain document fields fixed at construction. The own number is recomputed from those fields rather than memoised.
- `isValid` (inherited) is not part of this model. Each class holds its required-field list. `GetCodigoBarras` takes the set of inherited fields reported blank. For Efi, "convenio" counts as blank exactly when the agreement code is empty. The message text is not modelled.
- The amount is taken as the digit string handed to `numberFormatGeral`. The float formatting of `getValor` is not modelled.
- `Util::fatorVencimento` and its calendar arithmetic are not part of this model. The due-date factor is a document field.
- `Util::numberFormatGeral` is not part of this model. `Pad` left-pads with '0' to the width. For an over-long value it keeps the leading characters. Any stripping of non-digits is not captured.
- `Util::maskString` is not part of this model. `Mask` fills the '#' placeholders left to right. A value whose length differs from the placeholder count is a format error (`None`).
- `CalculoDV::bs2NossoNumero`, `CalculoDV::sisprimeNossoNumero` and `CalculoDV::unicredCodigoBarra` are not part of this model. They are function-valued constructor parameters about which nothing is assumed. So widths that involve them are stated in terms of the DV's length.
- Strings are sequences of characters. The byte-wise `strlen`/`$n[$i]` of Efi's `modulo11` is not distinguished from `mb_strlen`/`mb_substr` on multi-byte input.
- Integers are unbounded. PHP's 64-bit overflow of the weighted sum is not modelled (it needs strings far longer than a barcode).
- Setters (`setConvenio`, `setCip`) are left out: document fields do not change after construction. `getCip`, `localPagamento`, `carteiras`, `especieDoc` and `especiesCodigo` are plain configuration and are left out too.
- Exception messages are left out: a failure is the `MissingFieldError` outcome carrying the missing field names.
- Bank selection and framework integration are not part of these files.
