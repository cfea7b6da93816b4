/**
  The four hex colours the charts share: the bars of a category section and
  the gauge of the total use the same red, amber, emerald and blue.
 */
module Palette {
  const Red := "#ef4444"
  const Amber := "#f59e0b"
  const Emerald := "#10b981"
  const Blue := "#3b82f6"
}
