/**
 * The regular expressions a fresh `GenericBillParser` starts with, category
 * by category, as the parser's constructor lists them.
 */
module BillPatterns {
  const DatePatterns: seq<string> := [
      @"Fecha(?:\sde)?\semisión:\s*(\d{2}/\d{2}/\d{2,4})",
      @"Fecha:\s*(\d{2}/\d{2}/\d{2,4})",
      @"Emisión:\s*(\d{2}/\d{2}/\d{2,4})",
      @"FECHA DE EMISIÓN\s*(\d{2}/\d{2}/\d{2,4})"]

  const AccountNumberPatterns: seq<string> := [
      @"NÚMERO DE CUENTA:\s*(\d+)",
      @"CÓDIGO PAGO ELECTRÓNICO\s*(\d+)",
      @"Cod\.\s*018\s*(\d+)",
      @"N° de Cliente:\s*(\d+)",
      @"(?:Cuenta|Account)(?:\sNº)?:\s*(\d+)",
      @"N° DE CLIENTE\s*(\d+)",
      @"Nº\s*(\d{3}-\d{7}-\d{3}-\d)",
      @"Código de LINK PAGOS / BANELCO:\s*(\d+)"]

  const CustomerNamePatterns: seq<string> := [
      @"(?:NOMBRE:|Cliente:)\s*([\w\s,]+?)(?=\n)",
      @"(?<=\n)((?!CÓDIGO PAGO ELECTRÓNICO)[\w\s]+?)(?=\nCL\s)",
      @"Titular:\s*([\w\s,]+?)(?=\n)",
      @"APELLIDO Y NOMBRE[^:]*?:\s*([\w\s,]+?)(?=\n)",
      @"^([A-Z\s,]+?)(?=\s+Vencimiento)"]

  const DueDatePatterns: seq<string> := [
      @"Vencimiento actual:\s*(\d{2}/\d{2}/\d{2,4})",
      @"Vencimiento:\s*(\d{2}/\d{2}/\d{2,4})",
      @"C\.E\.S\.P\..*?:\s*(\d{2}/\d{2}/\d{2,4})",
      @"Fecha de vencimiento:\s*(\d{2}/\d{2}/\d{2,4})",
      @"VENCIMIENTO\s*(\d{2}/\d{2}/\d{2,4})"]

  const TotalAmountPatterns: seq<string> := [
      @"TOTAL\s*\$\s*([\d,.]+)",
      @"Total a pagar.*?\$\s*([\d,.]+)",
      @"Importe Total:?\s*\$\s*([\d,.]+)",
      @"TOTAL PESOS:\s*\$\s*([\d,.]+)",
      @"IMPORTE A PAGAR\s*\$\s*([\d,.]+)",
      @"\$\s*([\d,.]+)(?=\s*$)"]

  const BusinessInfoPatterns: seq<string> := [
      @"CUIT[^:]*?:\s*([\d-]+)",
      @"INGRESOS BRUTOS:\s*(\d+)",
      @"IVA\s*([^:\n]+?)(?=\n)",
      @"Inicio[^:]*?:\s*(\d{2}/\d{2}/\d{4})",
      @"ESTABLECIMIENTO[^:]*?:\s*([\d-]+)"]

  const ServicePeriodPatterns: seq<string> := [
      @"PERIODO\s+([^$\n]+?)(?=\s+VENCIMIENTO)",
      @"Período Facturado:\s*([\w\s/]+)",
      @"(\d{2}/\d{2}/\d{2,4})\s*al\s*(\d{2}/\d{2}/\d{2,4})"]

  const AddressPatterns: seq<string> := [
      @"Domicilio:\s*(.*?)(?=\n)",
      @"DOMICILIO POSTAL\s*(?:Calle)?\s*(.*?)(?=\n)",
      @"Domicilio suministro:\s*(?:CL\s+)?(.*?)(?=\d{4})",
      @"(?:CL|Calle)\s+(.*?)(?=\d{4})",
      @"Dirección de suministro:\s*(.*?)(?=\n)"]

  const PostalCodePatterns: seq<string> := [
      @"(?:CL|Domicilio).*?(\d{4})\s+([A-Z\s]+)",
      @"C\.P\.:\s*(\d{4})",
      @"CP:\s*(\d{4})"]

  const LocationPatterns: seq<string> := [
      @"(?:CL|Domicilio).*?\d{4}\s+([A-Z\s]+(?:SAN RAFAEL|MENDOZA|BUENOS AIRES)[A-Z\s]+)",
      @"Localidad:\s*([A-Z\s]+)",
      @"Loc\.:\s*([A-Z\s]+)"]

  const ChargesPatterns: seq<string> := [
      @"(Cargo Fijo[^$]*?)\$\s*([\d,.]+)",
      @"(Cargo Variable[^$]*?)\$\s*([\d,.]+)",
      @"(Subsidio[^:]*?):\s*\$?\s*(-?[\d,.]+)",
      @"(Impuesto[^:]*?):\s*\$?\s*([\d,.]+)",
      @"(Cargo[^:]*?):\s*\$?\s*([\d,.]+)",
      @"(Bonificación[^:]*?):\s*\$?\s*(-?[\d,.]+)",
      @"(Cuota Fija[^$]*?)\$?\s*([\d,.]+)",
      @"([\w\s]+?)\s*\$\s*([\d,.]+)(?=\n)"]

  const ServiceDetailsPatterns: seq<string> := [
      @"(\d{2}/\d{4})\s+(\d+)\s+([A-Z\s]+)\s+(\d+\s*[A-Z]+)\s+\$\s*([\d,.]+)",
      @"FTTH\s+([^$\n]+?)(?=\s+\$)",
      @"Internet\s+(\d+\s*MB)"]

  const InvoiceNumberPatterns: seq<string> := [
      @"FACTURA\s+([A-Z]\s+[\d-]+)",
      @"B-(\d+)",
      @"Nº\s*(\d{3}-\d{7}-\d{3}-\d)"]

  const InstallmentsPatterns: seq<string> := [
      @"CUOTA\s+\d+\s+VENCIMIENTO\s+(\d{2}/\d{2}/\d{4})\s+IMPORTE\s+\$\s*([\d,.]+)"]

  const ConsumptionPatterns: seq<string> := [
      @"Consumo Medido\s+(\d+)\s*m³",
      @"Factor de correción.*?\(1\)\s+(\d+\.\d+)",
      @"Calorías suministradas\s+(\d+\.\d+)\s*kcal",
      @"Consumo a facturar a \d+ kcal/m³\s+(\d+)\s*x\s+(\d+\.\d+)\s*x\s*\(\s*(\d+\.\d+)\s*\)\s+(\d+)\s*m³",
      @"M3 asignados.*?(\d+\.\d+)\s*m³",
      @"Cargo Variable kWh\s+(\d+)\s+([\d,.]+)\s+([\d,.]+)"]

  /** The patterns a fresh parser starts with, category by category. */
  const DefaultPatterns: map<string, seq<string>> := map[
    "date" := DatePatterns,
    "account_number" := AccountNumberPatterns,
    "customer_name" := CustomerNamePatterns,
    "due_date" := DueDatePatterns,
    "total_amount" := TotalAmountPatterns,
    "business_info" := BusinessInfoPatterns,
    "service_period" := ServicePeriodPatterns,
    "address" := AddressPatterns,
    "postal_code" := PostalCodePatterns,
    "location" := LocationPatterns,
    "charges" := ChargesPatterns,
    "service_details" := ServiceDetailsPatterns,
    "invoice_number" := InvoiceNumberPatterns,
    "installments" := InstallmentsPatterns,
    "consumption" := ConsumptionPatterns
  ]

}
