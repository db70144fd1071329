/** The lucide-react icons the alert components choose between. */
module Icons {
  datatype Icon = AlertTriangle | Bell | Clock | CheckCircle
}
