/**
 * The pattern table of the older bill converter: for each kind of datum
 * (`date`, `address`, `period`, `cost`, `consumption`) the regular
 * expressions tried in order. They are compiled without flags and searched
 * in the cleaned, upper-cased text.
 */
module LegacyPatterns {

  const DatePatterns: seq<string> := [
    @"Vto.:\s(\d{2}/\d{2}/\d{4})",
    @"PERIODO\s(\d{2}/\d{2}/\d{2})",
    @"Fecha:\s?(\d{2}/\d{2}/\d{2})",
    @"Vto.:\s?(\d{2}/\d{2}/\d{4})",
    @"al:\s?(\d{2}/\d{2}/\d{4})",
    @"Fecha emisión:\s(\d{2}/\d{2}/\d{4})",
    @"Fecha Vto\. C\.E\.S\.P\.:\s(\d{2}/\d{2}/\d{4})",
    @"Próximo Vencimiento:\s(\d{2}/\d{2}/\d{4})"
  ]

  const AddressPatterns: seq<string> := [
    @"DOMICILIO POSTAL\n(.+?)\n",
    @"Domicilio:\s?(.*)",
    @"DOMICILIO POSTAL\s+(.*?)\s+Nº LIQUIDACIÓN DE FECHA DE EMISIÓN PROX.",
    @"([A-Z\s\d]+)\nB° CENTRO",
    @"Domicilio suministro:\n(.+)"
  ]

  const PeriodPatterns: seq<string> := [
    @"Periodo:\s?(.*)",
    @"(\d{2}/\d{2}/\d{2})\s?al\s?(\d{2}/\d{2}/\d{2})",
    @"Período de consumo (\d{4}/\d{2})",
    @"Período Facturado:\s(\w+ \d{4})",
    @"Período Facturado:\s(.+)",
    @"BIM (\d{2}/\d{4})"
  ]

  const CostPatterns: seq<string> := [
    @"Tipo Lectura: Real\n\$ \s?([0-9]+.[0-9]+,[0-9]+)",
    @"IMPORTE A PAGAR\n\$\s?([0-9]+.[0-9]+)",
    @"TOTAL PESOS: \$ ([0-9]+.[0-9]+)",
    @"TOTAL \$ ([0-9]+,[0-9]+)",
    @"TOTAL \$ ([0-9]+.[0-9]+,[0-9]+)",
    @"Costo:\s?(\$[0-9]+.[0-9]+)\s?Ref:",
    @"IMPORTE A PAGAR\s+\$?\s?(.*?)\s+DOMICILIO POSTAL",
    @"TOTAL A PAGAR \$\s(\d+.\d{2})",
    @"TOTAL \$\s(\d+.\d{2})",
    @"Total a pagar hasta el \d{2}/\d{2}/\d{4} \$ (\d+.\d{2})",
    @"\$([0-9]+.[0-9]+)",
    @"\$(\d+.\d{2})",
    @"TOTAL \$ (\d{1,3}(?:\.\d{3})*(?:,\d{2}))",
    @"Subtotal \$ (\d{1,3}(?:\.\d{3})*(?:,\d{2}))"
  ]

  const ConsumptionPatterns: seq<string> := [
    @"Cargo Variable kWh (\d+)",
    @"Consumo Medido\s+(\d+)\s*m³"
  ]

  /** The test the converter applies to a cost capture before reading it as
      a number: a point followed by three digits marks a thousands
      separator. */
  const ThousandsDot: string := @"\.\d{3}"

  /** The pattern lists by kind of datum. */
  const RegexPatterns: map<string, seq<string>> := map[
    "date" := DatePatterns,
    "address" := AddressPatterns,
    "period" := PeriodPatterns,
    "cost" := CostPatterns,
    "consumption" := ConsumptionPatterns
  ]
}
