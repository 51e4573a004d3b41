/**
  The records the reports are built from, as the app stores them. Amounts
  are whole FCFA; dates are the stored display strings; the payment method
  is the stored string (`cash`, `wave`, `orange` or `debt`).
*/
module Records {

  datatype SaleItem = SaleItem(productId: string, productName: string, quantity: int, price: int)

  datatype Sale = Sale(
    id: string,
    customerName: string,
    items: seq<SaleItem>,
    total: int,
    date: string,
    status: string,
    paymentMethod: string,
    isPaid: bool)

  datatype Expense = Expense(id: string, description: string, amount: int, category: string, date: string)

  function SaleDate(s: Sale): string { s.date }

  function ExpenseDate(e: Expense): string { e.date }
}
