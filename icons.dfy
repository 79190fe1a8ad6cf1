/** The icon components the pages choose between (from the lucide-react package). */
module Icons {
  datatype Icon = Code | Server | Database | Smartphone | Sun | Moon
}
