/** Tailwind class strings the two tables use for coloured badges and texts. */
module Palette {

  const GreenBadge := "text-green-500 bg-green-100 dark:bg-green-900/20"
  const YellowBadge := "text-yellow-500 bg-yellow-100 dark:bg-yellow-900/20"
  const RedBadge := "text-red-500 bg-red-100 dark:bg-red-900/20"
  const BlueBadge := "text-blue-500 bg-blue-100 dark:bg-blue-900/20"
  const GrayBadge := "text-gray-500 bg-gray-100 dark:bg-gray-900/20"

  const GreenText := "text-green-500"
  const RedText := "text-red-500"
  const GrayText := "text-gray-500"
}
