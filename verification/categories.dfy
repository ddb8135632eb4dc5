/** The fixed lists the user interface offers: suggested categories per
    transaction type, chart colours and profile colours. */
module Categories {

  const ExpenseCategories: seq<string> := [
    "Food & Dining", "Transportation", "Shopping", "Entertainment",
    "Bills & Utilities", "Healthcare", "Travel", "Education",
    "Personal Care", "Groceries", "Rent/Mortgage", "Insurance",
    "Subscriptions", "Other"]

  const IncomeCategories: seq<string> := [
    "Salary", "Freelance", "Business", "Investments", "Rental Income",
    "Side Hustle", "Gifts", "Refunds", "Other"]

  const ChartColors: seq<string> := [
    "#8B5CF6", "#06B6D4", "#10B981", "#F59E0B", "#EF4444",
    "#EC4899", "#84CC16", "#6366F1", "#F97316", "#14B8A6"]

  const ProfileColors: seq<string> := [
    "#3B82F6", "#10B981", "#F59E0B", "#EF4444", "#8B5CF6",
    "#EC4899", "#06B6D4", "#84CC16", "#F97316", "#6366F1"]

  /** The colour a profile gets when none is given. */
  const DefaultProfileColor: string := "#3B82F6"
}
