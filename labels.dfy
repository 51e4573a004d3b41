/**
  The fixed wording of the reports: the period label, the payment-method
  label and the paid status of an invoice.
*/
module Labels {
  import opened Records
  import opened PeriodFilter

  /** `getPeriodLabel`. */
  function PeriodLabel(period: string): (name: string)
    ensures period == DAY ==> name == "Aujourd'hui"
    ensures period == WEEK ==> name == "Cette semaine"
    ensures period == MONTH ==> name == "Ce mois"
    ensures period == QUARTER ==> name == "Ce trimestre"
    ensures name == "" <==> !IsNamedPeriod(period)
  {
    if period == DAY then "Aujourd'hui"
    else if period == WEEK then "Cette semaine"
    else if period == MONTH then "Ce mois"
    else if period == QUARTER then "Ce trimestre"
    else ""
  }

  /** The payment column: cash, Wave and Orange Money by name, every other method as a debt. */
  function PaymentLabel(paymentMethod: string): (name: string)
    ensures paymentMethod == "cash" ==> name == "Espèces"
    ensures paymentMethod == "wave" ==> name == "Wave"
    ensures paymentMethod == "orange" ==> name == "Orange Money"
    ensures name == "Dette" <==> paymentMethod != "cash" && paymentMethod != "wave" && paymentMethod != "orange"
  {
    if paymentMethod == "cash" then "Espèces"
    else if paymentMethod == "wave" then "Wave"
    else if paymentMethod == "orange" then "Orange Money"
    else "Dette"
  }

  /** A sale is shown unpaid only when it is a debt not yet settled. */
  predicate IsUnpaid(sale: Sale) {
    sale.paymentMethod == "debt" && !sale.isPaid
  }

  /** The status line of an invoice. */
  function StatusText(sale: Sale): (text: string)
    ensures text == "STATUT: NON PAYÉ" <==> IsUnpaid(sale)
    ensures text == "STATUT: PAYÉ" <==> !IsUnpaid(sale)
  {
    if IsUnpaid(sale) then "STATUT: NON PAYÉ" else "STATUT: PAYÉ"
  }

  /** Settling a debt turns its invoice status to paid. */
  lemma SettledDebtIsPaid(sale: Sale)
    requires sale.paymentMethod == "debt"
    ensures StatusText(sale.(isPaid := true)) == "STATUT: PAYÉ"
    ensures !sale.isPaid ==> StatusText(sale) == "STATUT: NON PAYÉ"
  {
  }
}
