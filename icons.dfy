/** The icons the cards and the timeline draw next to an action. */
module Icons {
  datatype Icon = Clock | Calendar | Smartphone | TagIcon | ArrowRight
}
