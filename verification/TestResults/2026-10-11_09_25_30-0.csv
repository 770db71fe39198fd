TestResult.DisplayName,TestResult.Outcome,TestResult.Duration,TestResult.ResourceCount,RandomSeed
Noise.EstimateGainPoisson (correctness),Passed,00:00:00.9666830,1824119,2
DeconvolvePriv.DeconvolvePrivate.Deconvolve (correctness),Passed,00:00:00.6357912,900192,2
ExtractPsf.BackgroundBounded (correctness),Passed,00:00:00.6307373,1042657,2
FileNames.TimeOfOldStackName (correctness),Passed,00:00:00.6132896,1496821,2
DeconvolvePriv.DeconvolvePrivate.Deconvolve (well-formedness),Passed,00:00:00.4860873,579709,2
FiniteDiff.ConstantHasZeroDv (correctness),Passed,00:00:00.4641477,1084896,2
PsfOtf.Psf.Otf (correctness),Passed,00:00:00.4487520,770430,2
FiniteDiff.LineEntry (correctness),Passed,00:00:00.4400224,954469,2
ReadXml.SumCandidates (correctness),Passed,00:00:00.4267007,821853,2
ReadXml.Strided (well-formedness),Passed,00:00:00.4150244,874823,2
ExtractPsf.AverageCandidates (correctness),Passed,00:00:00.3936095,1061852,2
FiniteDiff.Grad (well-formedness),Passed,00:00:00.3834915,756820,2
BeadPsf.MeanVolumeBetween (correctness),Failed,00:00:00.3816012,2056363,2
DeconvolveApi.Deconvolve.Deconvolve (correctness),Passed,00:00:00.3772650,394656,2
DeconvolveApi.Deconvolve.Deconvolve (well-formedness),Passed,00:00:00.3771571,639027,2
BeadPsf.PsfGenerator._ctor (correctness),Passed,00:00:00.3568102,709540,2
FiniteDiff.ConstantHasZeroDv (well-formedness),Passed,00:00:00.3515434,753275,2
ExpandShape.Fill (well-formedness),Passed,00:00:00.3241972,1141176,2
ReadXml.AddRowSamples (correctness),Passed,00:00:00.3231416,610774,2
DeconvolvePriv.DeconvolvePrivate.Prepare (correctness),Passed,00:00:00.3206717,417163,2
BeadPsf.FilterBBoxes (correctness),Passed,00:00:00.3181032,809302,2
DeconvolvePriv.DeconvolvePrivate.Iterate (correctness),Passed,00:00:00.3132785,572639,2
PlaneRanges.FovDropsLastRow (correctness),Passed,00:00:00.3099705,621895,2
Images.Image.StatsRow (correctness),Passed,00:00:00.3073428,636187,2
ReadXml.Binned (well-formedness),Passed,00:00:00.2977176,507244,2
FileNames.OrderedTiffsNames (correctness),Passed,00:00:00.2931286,400078,2
FiniteDiff.Dv (well-formedness),Passed,00:00:00.2909577,353242,2
ReadXml.SpotsToPsf (well-formedness),Passed,00:00:00.2882975,398351,2
DeconvolvePriv.DefaultStopsAtCap (correctness),Passed,00:00:00.2783908,693272,2
PlaneRanges.CalcStacksAverage (correctness),Passed,00:00:00.2624670,837311,2
DeconvolvePriv.StackBounded (correctness),Passed,00:00:00.2593671,486276,2
ReadXml.Spots2Psf (correctness),Passed,00:00:00.2509477,394449,2
PyStr.LastFieldSplit (correctness),Passed,00:00:00.2502874,691722,2
BeadPsf.PsfGenerator.CalcMeanPsf (correctness),Passed,00:00:00.2416836,356748,2
DeconvolveApi.Deconvolve.Convolve (correctness),Passed,00:00:00.2365996,247131,2
Images.Image.CopyRow (correctness),Passed,00:00:00.2323610,1001869,2
ExtractPsf.ExtractPsfs (correctness),Passed,00:00:00.2315266,361019,2
FiniteDiff.DiffLine (correctness),Passed,00:00:00.2297455,478403,2
ExtractPsf.AverageInUnitRange (correctness),Passed,00:00:00.2284002,351975,2
ReadXml.Spots2Psf (well-formedness),Passed,00:00:00.2269618,356119,2
FileNames.TimeOfStackName (correctness),Passed,00:00:00.2267588,417473,2
ExtractPsf.AccumulateCandidates (correctness),Passed,00:00:00.2263573,278229,2
ExpandShape.GrowingEmbedsData (correctness),Passed,00:00:00.2248565,727210,2
SliceSpec.ParseSliceSpec (correctness),Passed,00:00:00.2232799,434265,2
ExtractPsf.Extraction (well-formedness),Passed,00:00:00.2142942,303907,2
Images.Image.GetStats (correctness),Passed,00:00:00.2128293,875947,2
ExtractPsf.AcceptedPeakIsOne (correctness),Passed,00:00:00.2117951,375696,2
ReadXml.Bin (correctness),Passed,00:00:00.2114431,268181,2
DeconvolveApi.Deconvolve.Convolve (well-formedness),Passed,00:00:00.2078508,230755,2
FiniteDiff.GradAlongLines (correctness),Passed,00:00:00.2046960,400190,2
ReadXml.ClusterWindows (correctness),Passed,00:00:00.2044166,999388,2
DeconvolvePriv.DeconvolvePrivate.Convolve (well-formedness),Passed,00:00:00.2038442,220495,2
ReadXml.SumCandidates (well-formedness),Passed,00:00:00.2035122,235244,2
ReadXml.AddVolume (well-formedness),Passed,00:00:00.2001455,249890,2
ExtractPsf.ExtractPsfs (well-formedness),Passed,00:00:00.1997647,290977,2
ExtractPsf.AveragedShape (well-formedness),Passed,00:00:00.1993410,241760,2
DeconvolvePriv.DeconvolvePrivate.Convolve (correctness),Passed,00:00:00.1951372,254252,2
Images.Image.Swap (correctness),Passed,00:00:00.1857951,277253,2
Noise.WideNoiseSucceeds (correctness),Passed,00:00:00.1843358,406108,2
ExtractPsf.AveragedShape (correctness),Passed,00:00:00.1821877,239871,2
ExtractPsf.AverageInUnitRange (well-formedness),Passed,00:00:00.1820918,220103,2
ExtractPsf.AverageCandidates (well-formedness),Passed,00:00:00.1791989,231593,2
ExtractPsf.PositivePeaksAtMostOne (correctness),Passed,00:00:00.1786037,197674,2
DeconvolvePriv.UserCallbackKeepsStack (correctness),Passed,00:00:00.1748912,430128,2
PyStr.LastField (well-formedness),Passed,00:00:00.1717808,366465,2
ReadXml.SummedPlanesStep (correctness),Passed,00:00:00.1714444,252884,2
ExtractPsf.Averaged (well-formedness),Passed,00:00:00.1705283,235353,2
DeconvolveApi.InterpAtUnitFree (correctness),Passed,00:00:00.1689728,747118,2
ExpandShape.GrowingEmbedsData (well-formedness),Passed,00:00:00.1688232,211038,2
DeconvolvePriv.UnregularizedRunsToCap (correctness),Passed,00:00:00.1675760,320091,2
PsfOtf.Psf.Otf (well-formedness),Passed,00:00:00.1671312,172195,2
ReadXml.Candidates (well-formedness),Passed,00:00:00.1661511,195072,2
ReadXml.Block (well-formedness),Passed,00:00:00.1652414,337675,2
ReadXml.CandidateOf (well-formedness),Passed,00:00:00.1635179,254594,2
ReadXml.Candidate (correctness),Passed,00:00:00.1631154,260946,2
NdArray.Crop (well-formedness),Passed,00:00:00.1567716,473640,2
DeconvolvePriv.RunStep (correctness),Passed,00:00:00.1560868,197224,2
Images.Image.CopyIn (correctness),Passed,00:00:00.1559526,556975,2
ReadXml.RowsAddedStep (correctness),Passed,00:00:00.1556070,195781,2
PsfOtf.FillPlane (correctness),Passed,00:00:00.1519595,332843,2
DeconvolvePriv.RunStep (well-formedness),Passed,00:00:00.1510204,172890,2
PyStr.ParseIntStr (correctness),Passed,00:00:00.1437365,340813,2
ExtractPsf.PositivePeaks (well-formedness),Passed,00:00:00.1436740,159670,2
DeconvolvePriv.DeconvolvePrivate.Iterate (well-formedness),Passed,00:00:00.1428493,209762,2
BeadPsf.OddRoundAboveThreeHalves (correctness),Failed,00:00:00.1415416,2008680,2
Images.Image.CombineRow (correctness),Passed,00:00:00.1402547,327447,2
ReadXml.CandidatesFit (well-formedness),Passed,00:00:00.1401751,168502,2
ExtractPsf.Verdicts (well-formedness),Passed,00:00:00.1397728,214058,2
ExpandShape.ExpandToShape (correctness),Passed,00:00:00.1389810,140988,2
DeconvolvePriv.LaterLambdaClamped (correctness),Passed,00:00:00.1388646,143783,2
DeconvolvePriv.DeconvolvePrivate.Prepare (well-formedness),Passed,00:00:00.1387948,185320,2
Noise.HistPrefix (correctness),Passed,00:00:00.1376917,642220,2
PsfOtf.FillLine (correctness),Passed,00:00:00.1373471,230625,2
FiniteDiff.Zip (well-formedness),Passed,00:00:00.1361930,301087,2
FileNames.Insert (well-formedness),Passed,00:00:00.1360419,301238,2
BeadPsf.Threshold (correctness),Passed,00:00:00.1358306,204868,2
ReadXml.TallyCountsAccepted (correctness),Passed,00:00:00.1336781,208559,2
DeconvolvePriv.DeconvolvePrivate.Ask (correctness),Passed,00:00:00.1311571,166152,2
Noise.Hist (well-formedness),Passed,00:00:00.1310377,117541,2
ReadXml.CandidatesFit (correctness),Passed,00:00:00.1301501,173160,2
ReadXml.Candidate (well-formedness),Passed,00:00:00.1301302,162565,2
BeadPsf.CropPsfs (correctness),Passed,00:00:00.1301212,245451,2
ReadXml.AddPlaneSamples (correctness),Passed,00:00:00.1289086,191198,2
ExtractPsf.Assess (well-formedness),Passed,00:00:00.1277135,183010,2
ReadXml.BinnedWithin (correctness),Passed,00:00:00.1270634,173965,2
ReadXml.CropWindow (well-formedness),Passed,00:00:00.1254755,225046,2
ReadXml.SummedPlanesMean (correctness),Passed,00:00:00.1249349,193982,2
FileNames.OrderedEntriesPermute (correctness),Passed,00:00:00.1248847,138453,2
ExtractPsf.AccumulateCandidates (well-formedness),Passed,00:00:00.1244616,186723,2
ExtractPsf.CandidateCrop (well-formedness),Passed,00:00:00.1244266,77446,2
ReadXml.Bin (well-formedness),Passed,00:00:00.1240272,105176,2
FileNames.OrderedEntriesSorted (correctness),Passed,00:00:00.1235527,196239,2
Images.Image.GetImage (correctness),Passed,00:00:00.1214342,258990,2
ExtractPsf.AcceptedPeakIsOne (well-formedness),Passed,00:00:00.1208956,178077,2
BeadPsf.KeptCrops (well-formedness),Passed,00:00:00.1207584,198877,2
DeconvolvePriv.Iteration (well-formedness),Passed,00:00:00.1204125,171627,2
Noise.EstimateGain (well-formedness),Passed,00:00:00.1197944,177397,2
FileNames.OrderedTiffsOld (well-formedness),Passed,00:00:00.1177061,129004,2
Images.RealRowsAt (correctness),Passed,00:00:00.1165791,1206952,2
DeconvolvePriv.UnregularizedRunsToCap (well-formedness),Passed,00:00:00.1157306,134010,2
ExtractPsf.PositivePeaksAtMostOne (well-formedness),Passed,00:00:00.1151532,164469,2
PlaneRanges.WritePlanes (correctness),Passed,00:00:00.1149451,341062,2
ExtractPsf.BoundaryCropInside (well-formedness),Passed,00:00:00.1144073,193905,2
Noise.EstimateGainPoisson (well-formedness),Passed,00:00:00.1142639,134623,2
DeconvolvePriv.FirstScaledLambda (well-formedness),Passed,00:00:00.1139329,146439,2
DeconvolveApi.ResamplingUnitFree (correctness),Passed,00:00:00.1137915,131301,2
SliceSpec.ParsePart (well-formedness),Passed,00:00:00.1135748,69568,2
BeadPsf.PsfGenerator.CalcMeanPsf (well-formedness),Passed,00:00:00.1134858,243785,2
ReadXml.HigherType (well-formedness),Passed,00:00:00.1134830,193343,2
FileNames.StackNameExample (correctness),Passed,00:00:00.1132216,257477,2
FileNames.DottedStemParsers (correctness),Passed,00:00:00.1121236,175292,2
Noise.NarrowNoiseRaises (well-formedness),Passed,00:00:00.1120520,114287,2
ReadXml.DivVolume (well-formedness),Passed,00:00:00.1119605,181903,2
Noise.NarrowNoiseRaises (correctness),Passed,00:00:00.1119324,153379,2
ExtractPsf.DiscardedExactly (correctness),Passed,00:00:00.1118291,213576,2
BeadPsf.PsfGenerator.MeanPsf (correctness),Passed,00:00:00.1115948,166506,2
ReadXml.TallyStep (correctness),Passed,00:00:00.1107619,124774,2
ExpandShape.ExpandedShape (correctness),Passed,00:00:00.1095996,136073,2
DeconvolvePriv.Pushed (well-formedness),Passed,00:00:00.1084449,15328,2
FiniteDiff.ZeroQuotient (well-formedness),Passed,00:00:00.1083490,126504,2
BeadPsf.PsfGenerator._ctor (well-formedness),Passed,00:00:00.1081717,171547,2
Noise.HistIsDensity (correctness),Passed,00:00:00.1072077,268903,2
BeadPsf.PsfGenerator.MeanPsf (well-formedness),Passed,00:00:00.1071444,214754,2
Images.Image.Nrm2 (correctness),Passed,00:00:00.1068186,266557,2
PlaneRanges.PlaneImage (well-formedness),Passed,00:00:00.1061225,95907,2
FileNames.OrderedTiffsNames (well-formedness),Passed,00:00:00.1059360,114220,2
DeconvolvePriv.UserCallbackKeepsStack (well-formedness),Passed,00:00:00.1058376,130042,2
Images.DataSize (well-formedness),Passed,00:00:00.1056043,13955,2
Images.RowStart (well-formedness),Passed,00:00:00.1055313,9989,2
DeconvolvePriv.DeconvolvePrivate.SetFftwHandlers (correctness),Passed,00:00:00.1046245,146784,2
Images.Image.Combine (correctness),Passed,00:00:00.1045164,210744,2
SliceSpec.SliceSpecAxes (correctness),Passed,00:00:00.1041739,158965,2
DeconvolveApi.Deconvolve.ClearCallback (correctness),Passed,00:00:00.1037263,103367,2
DeconvolvePriv.Run (well-formedness),Passed,00:00:00.1031114,152437,2
BeadPsf.MeanVolume (well-formedness),Passed,00:00:00.1027163,151015,2
Images.Image.At (well-formedness),Passed,00:00:00.1023918,441204,2
DeconvolvePriv.LambdaDeclined (well-formedness),Passed,00:00:00.1023832,8313,2
PySlice.Lo (well-formedness),Passed,00:00:00.1019921,15341,2
PySlice.Bound (well-formedness),Passed,00:00:00.1018733,13712,2
FileNames.ParseTimeOfStackPath (correctness),Passed,00:00:00.1015979,229002,2
Images.Image.CombineRow (well-formedness),Passed,00:00:00.1011708,100609,2
SliceSpec.SingleNumberIsStop (correctness),Passed,00:00:00.1011568,96222,2
FiniteDiff.ForwardRaw (well-formedness),Passed,00:00:00.1010962,26741,2
DeconvolvePriv.ArgsMeaning (correctness),Passed,00:00:00.1004115,153824,2
PyStr.ParseIntDigits (correctness),Passed,00:00:00.0991798,188468,2
DeconvolveApi.Deconvolve.SetCallbackExtended (correctness),Passed,00:00:00.0973417,127580,2
Noise.HistLastBar (correctness),Passed,00:00:00.0970007,251269,2
ReadXml.ExpandIndices (correctness),Passed,00:00:00.0966786,331884,2
BeadPsf.KeptCropsStep (correctness),Passed,00:00:00.0965888,129735,2
ExtractPsf.BoundaryCropInside (correctness),Passed,00:00:00.0964132,212019,2
Images.Image.AddRowSqDist (correctness),Passed,00:00:00.0962126,270638,2
ReadXml.SummedPlanesMean (well-formedness),Passed,00:00:00.0960013,127854,2
ExpandShape.OddShrinkRaises (correctness),Passed,00:00:00.0959909,125741,2
ExtractPsf.FwhmCount (well-formedness),Passed,00:00:00.0959747,118959,2
DeconvolvePriv.FirstScaledLambda (correctness),Passed,00:00:00.0959434,148120,2
DeconvolveApi.Deconvolve.ClearFftwHandlers (well-formedness),Passed,00:00:00.0956932,95043,2
FiniteDiff.BackwardIsShiftedForward (correctness),Passed,00:00:00.0947839,61095,2
DeconvolveApi.Deconvolve.SetFftwHandlers (correctness),Passed,00:00:00.0947360,111436,2
DeconvolvePriv.DeconvolvePrivate._ctor (well-formedness),Passed,00:00:00.0938985,71247,2
ReadXml.AddPlaneSamples (well-formedness),Passed,00:00:00.0933762,114447,2
FiniteDiff.GradAlongLines (well-formedness),Passed,00:00:00.0927553,141063,2
SliceSpec.ApplyFields (correctness),Passed,00:00:00.0927272,209782,2
FiniteDiff.ZeroBackward (correctness),Passed,00:00:00.0924986,139040,2
ExpandShape.WindowOf (well-formedness),Passed,00:00:00.0924491,7064,2
ReadXml.AddRowSamples (well-formedness),Passed,00:00:00.0921178,103730,2
ReadXml.ExpandLow (correctness),Passed,00:00:00.0920442,72082,2
DeconvolveApi.Deconvolve.SetCallbackExtended (well-formedness),Passed,00:00:00.0919622,93986,2
PyNum.SumBounds (correctness),Passed,00:00:00.0914944,184087,2
FileNames.Str1965 (correctness),Passed,00:00:00.0913406,148034,2
ReadXml.TallyFailsIff (correctness),Passed,00:00:00.0912137,155115,2
SliceSpec.FieldSlice (well-formedness),Passed,00:00:00.0911602,84919,2
ReadXml.RowsAdded (well-formedness),Passed,00:00:00.0910359,118649,2
FiniteDiff.Differences (well-formedness),Passed,00:00:00.0905180,104110,2
ReadXml.SummedPlanesStep (well-formedness),Passed,00:00:00.0903788,128736,2
DeconvolvePriv.DeconvolvePrivate.SetFftwHandlers (well-formedness),Passed,00:00:00.0903476,92356,2
ReadXml.SummedPlanes (well-formedness),Passed,00:00:00.0897043,109870,2
DeconvolvePriv.DeconvolvePrivate.CallbackDefault (correctness),Passed,00:00:00.0892115,104159,2
PlaneRanges.StackSumAppend (correctness),Passed,00:00:00.0887491,223502,2
ReadXml.ExpandWindow (correctness),Passed,00:00:00.0884745,172257,2
ExtractPsf.BackgroundIterations (well-formedness),Passed,00:00:00.0884447,76974,2
DeconvolveApi.InterpAtUnitFree (well-formedness),Passed,00:00:00.0880335,55804,2
PsfOtf.InterpolatedPlacement (correctness),Passed,00:00:00.0874450,127218,2
Noise.HistInnerBars (correctness),Passed,00:00:00.0874339,139993,2
DeconvolveApi.SameSamples (correctness),Passed,00:00:00.0871969,545435,2
PlaneRanges.FovDropsLastRow (well-formedness),Passed,00:00:00.0870489,139929,2
ExtractPsf.Rescaled (well-formedness),Passed,00:00:00.0854253,96004,2
ReadXml.TallyFailureSticks (correctness),Passed,00:00:00.0851517,114562,2
DeconvolveApi.Deconvolve.SetCallback (correctness),Passed,00:00:00.0850164,108238,2
DeconvolvePriv.FirstLambdaMustBeNonNegative (well-formedness),Passed,00:00:00.0847423,110765,2
PsfOtf.VoxelValue (correctness),Passed,00:00:00.0844753,235680,2
ExtractPsf.Window3 (well-formedness),Passed,00:00:00.0844702,140153,2
DeconvolvePriv.DeconvolvePrivate.Ask (well-formedness),Passed,00:00:00.0842892,146411,2
FiniteDiff.LineEntry (well-formedness),Passed,00:00:00.0842661,192682,2
DeconvolveApi.Deconvolve.EnableRegularization (well-formedness),Passed,00:00:00.0835179,73660,2
DeconvolvePriv.FirstLambdaMustBeNonNegative (correctness),Passed,00:00:00.0835046,119728,2
ReadXml.ExpandedFitsShape (correctness),Passed,00:00:00.0833851,59058,2
DeconvolvePriv.LaterLambdaClamped (well-formedness),Passed,00:00:00.0831902,123392,2
PsfOtf.Resample (correctness),Passed,00:00:00.0828756,139334,2
DeconvolveApi.Deconvolve.ClearSnr (correctness),Passed,00:00:00.0820006,104381,2
Images.Image.AppendRow (correctness),Passed,00:00:00.0811282,114173,2
ReadXml.FixClusterWindow (correctness),Passed,00:00:00.0810753,300197,2
ReadXml.MaximumCentering (well-formedness),Passed,00:00:00.0805773,98209,2
NdArray.RavelWithin (correctness),Passed,00:00:00.0803967,92231,2
PyStr.FirstFieldSplit (correctness),Passed,00:00:00.0802466,130889,2
LambdaCallback.FromEnd (well-formedness),Passed,00:00:00.0800455,6716,2
ReadXml.BinnedWithin (well-formedness),Passed,00:00:00.0798638,110511,2
Noise.EstimateGainOther (correctness),Passed,00:00:00.0798441,126770,2
ReadXml.RowsAddedStep (well-formedness),Passed,00:00:00.0797887,127809,2
DeconvolvePriv.DefaultStopsAtCap (well-formedness),Passed,00:00:00.0795009,130164,2
ExtractPsf.RollPermutes (correctness),Passed,00:00:00.0793167,414829,2
FileNames.OrderedTiffs (well-formedness),Passed,00:00:00.0791566,135670,2
FileNames.ProperNamePlaneNegative (correctness),Passed,00:00:00.0791437,170538,2
DeconvolvePriv.StackBounded (well-formedness),Passed,00:00:00.0790926,130145,2
PsfOtf.SingleSampleAxisVanishes (correctness),Passed,00:00:00.0782846,121185,2
DeconvolvePriv.ArgsMeaning (well-formedness),Passed,00:00:00.0782615,120560,2
Images.Image.Set (correctness),Passed,00:00:00.0782224,148353,2
ExtractPsf.UniformFirstIteration (correctness),Passed,00:00:00.0781774,129267,2
DeconvolvePriv.VoxelwiseIsCombined (correctness),Passed,00:00:00.0780985,63137,2
ExtractPsf.SumAtMostCount (well-formedness),Passed,00:00:00.0776873,59362,2
DeconvolvePriv.DeconvolvePrivate.ClearFftwHandlers (correctness),Passed,00:00:00.0776742,143565,2
Images.Image.InvDivideImage (correctness),Passed,00:00:00.0776299,92299,2
Images.NewImage (correctness),Passed,00:00:00.0775800,94803,2
PlaneRanges.NoSlashInZFill (correctness),Passed,00:00:00.0773590,143979,2
DeconvolveApi.Deconvolve.SetFftwHandlers (well-formedness),Passed,00:00:00.0770334,100974,2
DeconvolveApi.Deconvolve.SetMaxIterations (correctness),Passed,00:00:00.0769874,116038,2
DeconvolveApi.Deconvolve.ClearMaxIterations (correctness),Passed,00:00:00.0769638,104390,2
DeconvolveApi.Deconvolve.DisableRegularization (correctness),Passed,00:00:00.0769317,108110,2
ReadXml.TallyFailureSticks (well-formedness),Passed,00:00:00.0763104,87669,2
Images.RealRowsFrame (correctness),Passed,00:00:00.0760513,300505,2
ExtractPsf.BackgroundFrom (well-formedness),Passed,00:00:00.0760447,80852,2
Noise.ClampNegatives (well-formedness),Passed,00:00:00.0759731,29417,2
FftwSettings.NullPlanOnlyFromUser (well-formedness),Passed,00:00:00.0750237,35301,2
SliceSpec.TwoParts (correctness),Passed,00:00:00.0749483,144180,2
PsfOtf.Resample (well-formedness),Passed,00:00:00.0748786,81186,2
ReadXml.BlockWithin (correctness),Passed,00:00:00.0746997,91144,2
ExpandShape.ExpandedShape (well-formedness),Passed,00:00:00.0742827,137154,2
BeadPsf.AllInteriorKept (correctness),Passed,00:00:00.0735843,144616,2
ReadXml.BlockMeanWithin (correctness),Passed,00:00:00.0731615,127077,2
ExtractPsf.BackgroundOf (well-formedness),Passed,00:00:00.0730057,76056,2
DeconvolveApi.Deconvolve.EnableRegularization (correctness),Passed,00:00:00.0729938,108191,2
PlaneRanges.CropPlanesSelects (correctness),Passed,00:00:00.0727022,50315,2
ReadXml.ZeroVolume (well-formedness),Passed,00:00:00.0723456,114099,2
PsfOtf.InterpolatedPlacement (well-formedness),Passed,00:00:00.0722598,81848,2
DeconvolveApi.Deconvolve.SetSnr (correctness),Passed,00:00:00.0719786,115945,2
FiniteDiff.ZeroBackward (well-formedness),Passed,00:00:00.0716987,119245,2
DeconvolveApi.Deconvolve.ClearFftwHandlers (correctness),Passed,00:00:00.0715958,110245,2
PsfOtf.StoreVoxel (correctness),Passed,00:00:00.0714003,499860,2
FileNames.OrderedEntriesSorted (well-formedness),Passed,00:00:00.0711045,91149,2
FftwSettings.NullPlanOnlyFromUser (correctness),Passed,00:00:00.0708146,37648,2
DeconvolvePriv.VoxelwiseIsCombined (well-formedness),Passed,00:00:00.0707551,58737,2
Images.Image.ProdImage (correctness),Passed,00:00:00.0706935,92299,2
DeconvolveApi.Deconvolve.SetSnr (well-formedness),Passed,00:00:00.0705689,73674,2
BeadPsf.KeptBoxesFitFootprint (correctness),Passed,00:00:00.0702571,258362,2
ReadXml.ExpandedWindow (well-formedness),Passed,00:00:00.0702364,110167,2
PlaneRanges.SelectFrames (well-formedness),Passed,00:00:00.0702203,54047,2
ReadXml.BlockMean (well-formedness),Passed,00:00:00.0702180,106581,2
DeconvolveApi.Deconvolve.ClearCallback (well-formedness),Passed,00:00:00.0699730,74039,2
ExtractPsf.TallyOf (well-formedness),Passed,00:00:00.0699210,63247,2
FiniteDiff.Normaliser (well-formedness),Passed,00:00:00.0696165,113885,2
DeconvolvePriv.UserAnswer (well-formedness),Passed,00:00:00.0691847,69082,2
SliceSpec.SplitAt (correctness),Passed,00:00:00.0691234,188093,2
DeconvolvePriv.Correction (well-formedness),Passed,00:00:00.0690737,87022,2
PlaneRanges.MinimalFov (well-formedness),Passed,00:00:00.0690007,146519,2
DeconvolveApi.Deconvolve._ctor (correctness),Passed,00:00:00.0689128,104223,2
BeadPsf.CropPsfs (well-formedness),Passed,00:00:00.0688225,90950,2
PyNum.SumScale (correctness),Passed,00:00:00.0683087,237498,2
ReadXml.TallyOf (well-formedness),Passed,00:00:00.0682428,131229,2
ReadXml.BlockWithin (well-formedness),Passed,00:00:00.0680198,80602,2
DeconvolvePriv.DeconvolvePrivate._ctor (correctness),Passed,00:00:00.0679082,112907,2
DeconvolveApi.Deconvolve.SetPsf (correctness),Passed,00:00:00.0677308,79018,2
BeadPsf.KeptCropsStep (well-formedness),Passed,00:00:00.0675880,89823,2
DeconvolvePriv.LeastSquaresLambda (well-formedness),Passed,00:00:00.0672147,87253,2
ReadXml.TallyCountsAccepted (well-formedness),Passed,00:00:00.0672015,95948,2
BeadPsf.CropPsfFits (correctness),Passed,00:00:00.0670782,143153,2
ExtractPsf.FailureSticks (correctness),Passed,00:00:00.0670194,84829,2
ExtractPsf.NormalisedPeak (correctness),Passed,00:00:00.0666348,213398,2
SliceSpec.ParseParts (well-formedness),Passed,00:00:00.0666109,130696,2
Noise.HistInnerBars (well-formedness),Passed,00:00:00.0662174,55973,2
Images.Image.AddRowSqDist (well-formedness),Passed,00:00:00.0658401,57903,2
Images.SetGetRoundTrip (correctness),Passed,00:00:00.0656955,74841,2
SliceSpec.EmptySpecKeepsAll (correctness),Passed,00:00:00.0655191,120766,2
SliceSpec.TwoParts (well-formedness),Passed,00:00:00.0655111,81405,2
DeconvolveApi.ResamplingUnitFree (well-formedness),Passed,00:00:00.0652885,78405,2
Images.PadRowColumn (correctness),Passed,00:00:00.0652402,56852,2
SliceSpec.ApplyFields (well-formedness),Passed,00:00:00.0650736,104214,2
BeadPsf.ZeroBelow (correctness),Passed,00:00:00.0650680,70145,2
DeconvolveApi.Deconvolve.Valid (well-formedness),Passed,00:00:00.0647912,59846,2
FiniteDiff.ForwardRawTelescopes (correctness),Passed,00:00:00.0645715,101910,2
ExpandShape.Voxel (well-formedness),Passed,00:00:00.0645664,84850,2
ExpandShape.Expanded (well-formedness),Passed,00:00:00.0645236,110380,2
Noise.WideNoiseSucceeds (well-formedness),Passed,00:00:00.0643863,114190,2
SliceSpec.Apply (well-formedness),Passed,00:00:00.0637545,93839,2
BeadPsf.OneAbove (correctness),Passed,00:00:00.0631215,39121,2
FileNames.SortedByTime (well-formedness),Passed,00:00:00.0630978,13121,2
PlaneRanges.StackSumVoxel (correctness),Passed,00:00:00.0623614,101413,2
PsfOtf.TrilinearConvex (correctness),Passed,00:00:00.0620917,40165,2
SliceSpec.SliceSpecOf (well-formedness),Passed,00:00:00.0620840,94460,2
ExtractPsf.SumAtMostCount (correctness),Passed,00:00:00.0617483,131172,2
Images.Image.Set (well-formedness),Passed,00:00:00.0612913,67450,2
FileNames.SortByTime (well-formedness),Passed,00:00:00.0612867,101425,2
ReadXml.BlockMeanWithin (well-formedness),Passed,00:00:00.0611430,84388,2
ExpandShape.OddShrinkRaises (well-formedness),Passed,00:00:00.0611129,105537,2
PsfOtf.OwnGridCopies (correctness),Passed,00:00:00.0610353,132753,2
DeconvolveApi.Deconvolve.ClearSnr (well-formedness),Passed,00:00:00.0607203,73963,2
BeadPsf.AvBBoxSizeBetween (correctness),Passed,00:00:00.0606889,156009,2
BeadPsf.CalcAvBBoxSize (correctness),Passed,00:00:00.0595589,106722,2
ExtractPsf.ClearDiscarded (correctness),Passed,00:00:00.0595522,77394,2
Images.StatsTo (well-formedness),Passed,00:00:00.0593499,122386,2
Noise.InnerBar (correctness),Passed,00:00:00.0590599,81026,2
PsfOtf.NormaliseInPlace (correctness),Passed,00:00:00.0588855,67615,2
FileNames.StackNameSpelling (correctness),Passed,00:00:00.0586518,366021,2
PsfOtf.SingleSampleAxisVanishes (well-formedness),Passed,00:00:00.0584483,80955,2
FftwSettings.ImageSettings.ForwardPlan (correctness),Passed,00:00:00.0582365,51159,2
Images.StatsStep (correctness),Passed,00:00:00.0576520,101812,2
DeconvolveApi.Deconvolve.DisableRegularization (well-formedness),Passed,00:00:00.0574623,73674,2
PsfOtf.Interpolated (well-formedness),Passed,00:00:00.0573183,91202,2
Noise.HistPrefix (well-formedness),Passed,00:00:00.0571411,62836,2
Noise.PhotonCount (correctness),Passed,00:00:00.0569939,75328,2
PlaneRanges.CreatePlanesTiff (well-formedness),Passed,00:00:00.0569375,74208,2
ExtractPsf.BackgroundBounded (well-formedness),Passed,00:00:00.0568802,82179,2
ExtractPsf.CountIsAccepted (well-formedness),Passed,00:00:00.0567475,53568,2
ExtractPsf.FailureSticks (well-formedness),Passed,00:00:00.0566252,56231,2
PyStr.Split (well-formedness),Passed,00:00:00.0565348,155273,2
DeconvolvePriv.DeconvolvePrivate.ClearFftwHandlers (well-formedness),Passed,00:00:00.0562710,86424,2
FiniteDiff.Line (well-formedness),Passed,00:00:00.0561739,85682,2
PlaneRanges.PlaneFilesDistinct (correctness),Passed,00:00:00.0559998,101024,2
DeconvolveApi.ApiUnitsAgree (correctness),Passed,00:00:00.0559891,81649,2
Images.Image.InvDivideImage (well-formedness),Passed,00:00:00.0559331,84569,2
SliceSpec.EmptyField (correctness),Passed,00:00:00.0556116,105263,2
FiniteDiff.BufferHoldsDiffs (correctness),Passed,00:00:00.0553311,92400,2
PsfOtf.PartialStep (correctness),Passed,00:00:00.0549997,116630,2
PsfOtf.Psf.Valid (well-formedness),Passed,00:00:00.0549766,46885,2
DeconvolveApi.SampleUnitFree (well-formedness),Passed,00:00:00.0548842,13483,2
BeadPsf.CropPsf (well-formedness),Passed,00:00:00.0548317,83910,2
DeconvolveApi.Deconvolve.SetMaxIterations (well-formedness),Passed,00:00:00.0547495,73773,2
ReadXml.TallyStep (well-formedness),Passed,00:00:00.0547331,96272,2
PsfOtf.FillLine (well-formedness),Passed,00:00:00.0547007,102455,2
DeconvolveApi.Deconvolve.ClearMaxIterations (well-formedness),Passed,00:00:00.0545560,74010,2
SliceSpec.TooManyFields (correctness),Passed,00:00:00.0545402,98805,2
FiniteDiff.BackwardRawTelescopes (correctness),Passed,00:00:00.0544389,41878,2
ReadXml.BlurSteps (well-formedness),Passed,00:00:00.0543643,46476,2
ExtractPsf.EstimateBackground (correctness),Passed,00:00:00.0540329,109892,2
PlaneRanges.PyRange (well-formedness),Passed,00:00:00.0537311,144455,2
PyStr.ParseInt (well-formedness),Passed,00:00:00.0536784,53236,2
ExtractPsf.UniformStackFails (correctness),Passed,00:00:00.0535751,86503,2
ExtractPsf.CountIsAccepted (correctness),Passed,00:00:00.0535159,88153,2
PsfOtf.InterpAt (well-formedness),Passed,00:00:00.0529902,97987,2
ReadXml.ExpandedFitsShape (well-formedness),Passed,00:00:00.0527772,50735,2
DeconvolveApi.Deconvolve._ctor (well-formedness),Passed,00:00:00.0526932,72082,2
BeadPsf.AllInteriorKept (well-formedness),Passed,00:00:00.0525524,86672,2
FiniteDiff.ZeroQuotient (correctness),Passed,00:00:00.0524406,94010,2
ExpandShape.ExpandToShape (well-formedness),Passed,00:00:00.0523530,109750,2
PsfOtf.LerpBetween (correctness),Passed,00:00:00.0520674,23538,2
BeadPsf.ZeroBelow (well-formedness),Passed,00:00:00.0520557,29620,2
BeadPsf.MeanVolumeBetween (well-formedness),Passed,00:00:00.0520007,83177,2
PsfOtf.FillPlane (well-formedness),Passed,00:00:00.0517419,100647,2
FileNames.ProperNamePlaneIsZFill (correctness),Passed,00:00:00.0516697,91532,2
ReadXml.PsfShapeCovers (correctness),Passed,00:00:00.0512903,59557,2
BeadPsf.FilterSize (well-formedness),Passed,00:00:00.0512336,68073,2
PsfOtf.NewPsf (correctness),Passed,00:00:00.0510650,70645,2
ExpandShape.AxisSource (well-formedness),Passed,00:00:00.0506694,55205,2
Noise.ClampNegatives (correctness),Passed,00:00:00.0506289,79688,2
PsfOtf.Psf.Set (correctness),Passed,00:00:00.0504748,85499,2
FileNames.DottedStemSpelling (correctness),Passed,00:00:00.0503560,138422,2
FftwSettings.ImageSettings.InversePlan (well-formedness),Passed,00:00:00.0502559,46807,2
BeadPsf.GetLargestBBox (correctness),Passed,00:00:00.0502140,65360,2
PlaneRanges.CreatePlanesTiff (correctness),Passed,00:00:00.0499474,80484,2
Images.Image.ProdImage (well-formedness),Passed,00:00:00.0498876,84569,2
FileNames.Entries (well-formedness),Passed,00:00:00.0497003,106747,2
Images.Image.ReleaseData (correctness),Passed,00:00:00.0496431,63360,2
Images.Image.CopyData (correctness),Passed,00:00:00.0493872,72413,2
Images.NewImage (well-formedness),Passed,00:00:00.0493555,67378,2
Images.Image.Combine (well-formedness),Passed,00:00:00.0491596,72716,2
Images.IsReal (well-formedness),Passed,00:00:00.0487681,9624,2
DeconvolveApi.Deconvolve.SetCallback (well-formedness),Passed,00:00:00.0486197,77100,2
FileNames.OrderedEntriesPermute (well-formedness),Passed,00:00:00.0483278,99964,2
FileNames.TimeFolderParses (correctness),Passed,00:00:00.0483160,84111,2
ReadXml.ClusterWindows (well-formedness),Passed,00:00:00.0481001,48023,2
SliceSpec.SplitThree (correctness),Passed,00:00:00.0477047,108767,2
BeadPsf.CalcAvBBoxSize (well-formedness),Passed,00:00:00.0476711,47960,2
ReadXml.TallyFailsIff (well-formedness),Passed,00:00:00.0476115,81878,2
DeconvolveApi.ApiUnitsAgree (well-formedness),Passed,00:00:00.0474281,81517,2
BeadPsf.IsFilterResult (well-formedness),Passed,00:00:00.0472965,55235,2
FileNames.LastFieldAfter (correctness),Passed,00:00:00.0472927,111567,2
Noise.HistLastBar (well-formedness),Passed,00:00:00.0470673,55187,2
ReadXml.Windows (well-formedness),Passed,00:00:00.0470282,75820,2
DeconvolveApi.SameSamples (well-formedness),Passed,00:00:00.0468179,64488,2
Images.Image.Nrm2 (well-formedness),Passed,00:00:00.0466839,74185,2
NdArray.PlaneWithin (well-formedness),Passed,00:00:00.0464160,24302,2
DeconvolveApi.Deconvolve.SetPsf (well-formedness),Passed,00:00:00.0463063,70273,2
SliceSpec.NoBrackets (correctness),Passed,00:00:00.0461290,46300,2
ExtractPsf.UniformMoments (correctness),Passed,00:00:00.0460332,71876,2
BeadPsf.LargestFootprint (well-formedness),Passed,00:00:00.0460052,31757,2
SliceSpec.SliceSpecAxes (well-formedness),Passed,00:00:00.0459325,103166,2
ReadXml.Expanded (well-formedness),Passed,00:00:00.0453387,115071,2
DeconvolvePriv.Start (well-formedness),Passed,00:00:00.0451398,83764,2
ExtractPsf.FieldOf (well-formedness),Passed,00:00:00.0449836,51764,2
SliceSpec.TooManyFields (well-formedness),Passed,00:00:00.0449758,88585,2
ExtractPsf.Lowered (well-formedness),Passed,00:00:00.0449466,72580,2
Images.SqDistToZeroIff (correctness),Passed,00:00:00.0445398,79499,2
PyStr.ZFillParse (correctness),Passed,00:00:00.0444011,96884,2
FiniteDiff.BackwardRawTelescopes (well-formedness),Passed,00:00:00.0443761,21559,2
PlaneRanges.PlaneIdsIgnoreUpperLimit (correctness),Passed,00:00:00.0442811,85624,2
ExpandShape.OddShrinkMismatches (correctness),Passed,00:00:00.0438748,102728,2
FiniteDiff.DiffLine (well-formedness),Passed,00:00:00.0437814,37667,2
FiniteDiff.DiffAt (correctness),Passed,00:00:00.0435386,45207,2
Images.Image.Voxels (well-formedness),Passed,00:00:00.0434020,56628,2
PlaneRanges.CalcStacksAverage (well-formedness),Passed,00:00:00.0431813,55526,2
DeconvolvePriv.DeconvolvePrivate.ClearMaxIterations (correctness),Passed,00:00:00.0430438,47058,2
FileNames.SplitExtRootOf (correctness),Passed,00:00:00.0428338,65334,2
Noise.CountTotal (correctness),Passed,00:00:00.0427407,117469,2
BeadPsf.Threshold (well-formedness),Passed,00:00:00.0423654,41016,2
Images.Image.CopyRow (well-formedness),Passed,00:00:00.0421285,80064,2
Noise.UnitCounts (well-formedness),Passed,00:00:00.0420052,49503,2
Images.Image.Valid (well-formedness),Passed,00:00:00.0417449,36389,2
PyStr.NatStr (well-formedness),Passed,00:00:00.0416667,89964,2
PsfOtf.Psf._ctor (correctness),Passed,00:00:00.0415391,49504,2
ExtractPsf.TallyOfNext (well-formedness),Passed,00:00:00.0412251,60989,2
ExtractPsf.EmptyCountFails (well-formedness),Passed,00:00:00.0411066,75124,2
PsfOtf.Partial (well-formedness),Passed,00:00:00.0409763,51654,2
ExtractPsf.VisitLabel (correctness),Passed,00:00:00.0408588,55154,2
ExtractPsf.UniformFirstIteration (well-formedness),Passed,00:00:00.0407819,80364,2
PyStr.LStrip (well-formedness),Passed,00:00:00.0407752,50065,2
PsfOtf.PartialEnds (correctness),Passed,00:00:00.0406679,47794,2
BeadPsf.KeptBoxesFitFootprint (well-formedness),Passed,00:00:00.0406125,58456,2
Images.SqDistConcat (correctness),Passed,00:00:00.0405469,68491,2
Images.Image._ctor (correctness),Passed,00:00:00.0403358,53059,2
Images.Image.GetStats (well-formedness),Passed,00:00:00.0401494,71246,2
Images.Image.CopyData (well-formedness),Passed,00:00:00.0401227,58673,2
PsfOtf.Source (well-formedness),Passed,00:00:00.0399572,28902,2
ExtractPsf.DiscardedExactly (well-formedness),Passed,00:00:00.0399173,67309,2
ReadXml.ExpandBoth (correctness),Passed,00:00:00.0395588,181295,2
PsfOtf.OwnGridCopies (well-formedness),Passed,00:00:00.0393855,56886,2
FiniteDiff.Forward (well-formedness),Passed,00:00:00.0389718,33853,2
SliceSpec.DataSourceChecks (correctness),Passed,00:00:00.0388206,90653,2
PsfOtf.PartialStep (well-formedness),Passed,00:00:00.0387886,51344,2
DeconvolvePriv.DeconvolvePrivate.ClearMaxIterations (well-formedness),Passed,00:00:00.0386789,33910,2
Images.Nrm2IsSquared (correctness),Passed,00:00:00.0385521,15852,2
SliceSpec.DataSourceChecks (well-formedness),Passed,00:00:00.0383671,63429,2
DeconvolvePriv.Args (well-formedness),Passed,00:00:00.0383193,48525,2
Images.Unpad (well-formedness),Passed,00:00:00.0381253,165763,2
Images.CombinedVoxelwise (correctness),Passed,00:00:00.0378963,69024,2
PyStr.RStrip (well-formedness),Passed,00:00:00.0378151,48836,2
ExtractPsf.Rolled (well-formedness),Passed,00:00:00.0377009,64191,2
DeconvolvePriv.DeconvolvePrivate.SetPsf (correctness),Passed,00:00:00.0376094,83803,2
DeconvolvePriv.DeconvolvePrivate.SetMaxIterations (well-formedness),Passed,00:00:00.0375568,33685,2
ExtractPsf.BackgroundIterations (correctness),Passed,00:00:00.0375259,86848,2
PlaneRanges.WritePlanes (well-formedness),Passed,00:00:00.0374802,47284,2
PyStr.SplitExtRoot (well-formedness),Passed,00:00:00.0374519,72321,2
PlaneRanges.EmptyLimitsDiffer (correctness),Passed,00:00:00.0372992,55880,2
BeadPsf.LargestExtentIsMax (correctness),Passed,00:00:00.0372009,70983,2
BeadPsf.CropAxisFull (correctness),Passed,00:00:00.0371595,178429,2
PlaneRanges.PlaneIdsIgnoreUpperLimit (well-formedness),Passed,00:00:00.0369377,57312,2
ExtractPsf.EmptyCountFails (correctness),Passed,00:00:00.0369101,76451,2
DeconvolvePriv.Voxelwise (well-formedness),Passed,00:00:00.0366901,37001,2
PsfOtf.NormalisedSumsToOne (well-formedness),Passed,00:00:00.0366726,20730,2
Images.FirstVoxel (correctness),Passed,00:00:00.0366625,81758,2
ReadXml.Clamped (well-formedness),Passed,00:00:00.0365520,76163,2
Images.Image.StatsRow (well-formedness),Passed,00:00:00.0361577,55323,2
ReadXml.FittingPrefix (correctness),Passed,00:00:00.0356803,37246,2
PsfOtf.Coords (well-formedness),Passed,00:00:00.0355833,143148,2
Noise.ArgMin (well-formedness),Passed,00:00:00.0355641,71436,2
Noise.HistIsDensity (well-formedness),Passed,00:00:00.0350613,59553,2
ExtractPsf.VisitLabel (well-formedness),Passed,00:00:00.0350505,48156,2
Images.Image.GetImage (well-formedness),Passed,00:00:00.0349410,58012,2
DeconvolvePriv.DeconvolvePrivate.SetMaxIterations (correctness),Passed,00:00:00.0348884,44003,2
ExtractPsf.Foreground (well-formedness),Passed,00:00:00.0347780,50610,2
PsfOtf.Psf.Set (well-formedness),Passed,00:00:00.0346693,48265,2
DeconvolveApi.Bind (well-formedness),Passed,00:00:00.0346423,38747,2
ReadXml.AsShape (well-formedness),Passed,00:00:00.0345758,9218,2
PsfOtf.Psf._ctor (well-formedness),Passed,00:00:00.0343050,41396,2
SliceSpec.DataSource (well-formedness),Passed,00:00:00.0342811,42351,2
Images.Image.CopyIn (well-formedness),Passed,00:00:00.0342736,58209,2
BeadPsf.CropPsfFits (well-formedness),Passed,00:00:00.0342433,46756,2
Images.RealPart (well-formedness),Passed,00:00:00.0340070,50625,2
FiniteDiff.DiffAt (well-formedness),Passed,00:00:00.0339703,31830,2
PyStr.RemoveUnderscores (well-formedness),Passed,00:00:00.0337127,93429,2
PsfOtf.StoreVoxel (well-formedness),Passed,00:00:00.0336391,61201,2
ExtractPsf.UniformStackFails (well-formedness),Passed,00:00:00.0335847,76198,2
PsfOtf.PartialEnds (well-formedness),Passed,00:00:00.0334235,47262,2
DeconvolvePriv.DeconvolvePrivate.CallbackDefault (well-formedness),Passed,00:00:00.0333863,46764,2
LambdaCallback.TieIsTheOnlyDifference (correctness),Passed,00:00:00.0333295,52520,2
Images.Image.AppendRow (well-formedness),Passed,00:00:00.0332476,48754,2
FiniteDiff.MinModAgrees (correctness),Passed,00:00:00.0331258,62846,2
PlaneRanges.Average (well-formedness),Passed,00:00:00.0330323,49921,2
Noise.InnerBar (well-formedness),Passed,00:00:00.0328144,54165,2
Images.RealPartIgnoresPadding (well-formedness),Passed,00:00:00.0327614,35269,2
PsfOtf.VoxelValue (well-formedness),Passed,00:00:00.0327514,56367,2
PyStr.DigitsValueLeadingZeros (correctness),Passed,00:00:00.0325424,59704,2
PySlice.SliceInRange (well-formedness),Passed,00:00:00.0323344,23492,2
PlaneRanges.RowSums (well-formedness),Passed,00:00:00.0322815,39302,2
FileNames.ProperNamePlane (well-formedness),Passed,00:00:00.0322812,37382,2
Images.CombinedVoxelwise (well-formedness),Passed,00:00:00.0322323,65718,2
LambdaCallback.LambdaLog.Call (correctness),Passed,00:00:00.0321457,49672,2
FiniteDiff.DifferencesTelescope (correctness),Passed,00:00:00.0319536,55661,2
DeconvolvePriv.DeconvolvePrivate.SetPsf (well-formedness),Passed,00:00:00.0319147,60893,2
PsfOtf.Accumulate (correctness),Passed,00:00:00.0318098,38653,2
PyStr.Str (well-formedness),Passed,00:00:00.0317696,33921,2
FileNames.FirstFieldBefore (correctness),Passed,00:00:00.0316966,44003,2
PsfOtf.NegativeFractionPasses (correctness),Passed,00:00:00.0316009,17453,2
ExtractPsf.Visit (well-formedness),Passed,00:00:00.0315797,56106,2
PlaneRanges.EmptyLimitsDiffer (well-formedness),Passed,00:00:00.0315664,42328,2
PsfOtf.NewPsf (well-formedness),Passed,00:00:00.0314811,52535,2
PlaneRanges.PlaneNamesDiffer (correctness),Passed,00:00:00.0313495,37143,2
ExpandShape.EvenShrinkCentreCrops (correctness),Passed,00:00:00.0309951,66640,2
FileNames.LastFieldOrTime (correctness),Passed,00:00:00.0308771,54743,2
FftwSettings.ImageSettings.ForwardPlan (well-formedness),Passed,00:00:00.0307387,46807,2
FileNames.ZFillDigits (well-formedness),Passed,00:00:00.0306556,28884,2
ExtractPsf.CheckBoundary (well-formedness),Passed,00:00:00.0305545,29908,2
PsfOtf.NormalisedSumsToOne (correctness),Passed,00:00:00.0302186,53325,2
FiniteDiff.BufferHoldsDiffs (well-formedness),Passed,00:00:00.0301397,38704,2
Noise.CountSplit (correctness),Passed,00:00:00.0301353,31860,2
ExtractPsf.TallyOfNext (correctness),Passed,00:00:00.0300834,63244,2
PyStr.LastFieldSplit (well-formedness),Passed,00:00:00.0299811,53860,2
Images.Image.Swap (well-formedness),Passed,00:00:00.0299429,38026,2
DeconvolvePriv.Fits (well-formedness),Passed,00:00:00.0298784,28689,2
Images.Image.ReleaseData (well-formedness),Passed,00:00:00.0298288,30310,2
Noise.Clamped (well-formedness),Passed,00:00:00.0298013,35363,2
DeconvolvePriv.DeconvolvePrivate.ClearSnr (correctness),Passed,00:00:00.0296908,44764,2
ReadXml.SameVolume (correctness),Passed,00:00:00.0296380,48290,2
PlaneRanges.LastNonZero (well-formedness),Passed,00:00:00.0295671,54821,2
PyStr.ParseIntDigits (well-formedness),Passed,00:00:00.0295657,44775,2
Noise.MinMaxAttained (correctness),Passed,00:00:00.0295089,76962,2
FileNames.ZFillDigits (correctness),Passed,00:00:00.0294576,37259,2
PlaneRanges.CropPlanes (well-formedness),Passed,00:00:00.0292529,52121,2
Images.RealPartIgnoresPadding (correctness),Passed,00:00:00.0291595,69277,2
PsfOtf.FractionInUnit (well-formedness),Passed,00:00:00.0291341,13434,2
PySlice.Slice (well-formedness),Passed,00:00:00.0290431,53930,2
ExtractPsf.Resize (well-formedness),Passed,00:00:00.0289969,36185,2
ExtractPsf.CheckAxes (well-formedness),Passed,00:00:00.0288386,35119,2
ExtractPsf.BelowCut (well-formedness),Passed,00:00:00.0288238,36664,2
DeconvolvePriv.DeconvolvePrivate.Valid (well-formedness),Passed,00:00:00.0287570,62581,2
SliceSpec.ThreeFields (correctness),Passed,00:00:00.0287240,41070,2
PlaneRanges.CreatePlanesTiffOldNeverWrites (correctness),Passed,00:00:00.0287137,44001,2
DeconvolveApi.SampleUnitFree (correctness),Passed,00:00:00.0285755,88556,2
BeadPsf.Column (well-formedness),Passed,00:00:00.0285704,47660,2
BeadPsf.ExactSizeAccepted (correctness),Passed,00:00:00.0285558,65305,2
ReadXml.MeanWithin (correctness),Passed,00:00:00.0285398,142175,2
FiniteDiff.Backward (well-formedness),Passed,00:00:00.0284154,33869,2
PyStr.ParseUnsignedDigits (correctness),Passed,00:00:00.0284149,44999,2
FiniteDiff.BackwardRaw (well-formedness),Passed,00:00:00.0284135,26915,2
Noise.MinCountNonNegative (correctness),Passed,00:00:00.0283885,42477,2
Noise.Masses (well-formedness),Passed,00:00:00.0282562,37977,2
ExtractPsf.RollRotates (correctness),Passed,00:00:00.0282019,98303,2
Images.Combined (well-formedness),Passed,00:00:00.0281847,44800,2
LambdaCallback.LambdaLog.Call (well-formedness),Passed,00:00:00.0281806,22459,2
Images.StatsUnique (correctness),Passed,00:00:00.0280338,92555,2
Images.RealRows (well-formedness),Passed,00:00:00.0278238,34671,2
FileNames.StrHasNoSeparator (correctness),Passed,00:00:00.0278137,39551,2
PsfOtf.ShiftBijection (correctness),Passed,00:00:00.0278091,216122,2
BeadPsf.ZeroToleranceRejectsAll (correctness),Passed,00:00:00.0277843,42483,2
PlaneRanges.CropPlanesSelects (well-formedness),Passed,00:00:00.0276669,37842,2
BeadPsf.Thresholded (well-formedness),Passed,00:00:00.0276266,31892,2
FiniteDiff.BackwardIsShiftedForward (well-formedness),Passed,00:00:00.0274756,37452,2
FileNames.FolderSpelling (correctness),Passed,00:00:00.0272686,43514,2
PyStr.Strip (well-formedness),Passed,00:00:00.0271605,25514,2
DeconvolvePriv.DeconvolvePrivate.ClearCallback (correctness),Passed,00:00:00.0268959,42826,2
ExtractPsf.WindowInside (correctness),Passed,00:00:00.0268252,30503,2
ExpandShape.AxisWindow (correctness),Passed,00:00:00.0267153,38146,2
DeconvolvePriv.DeconvolvePrivate.SetRegularization (correctness),Passed,00:00:00.0266758,44096,2
PlaneRanges.FirstNonZero (well-formedness),Passed,00:00:00.0265982,70024,2
BeadPsf.ExtentsPrefix (correctness),Passed,00:00:00.0265678,44879,2
ReadXml.PsfShapeOfAppend (correctness),Passed,00:00:00.0265005,36231,2
Images.FirstVoxel (well-formedness),Passed,00:00:00.0264312,35880,2
ExtractPsf.OddHalf (well-formedness),Passed,00:00:00.0264138,4944,2
ReadXml.AxialResolution (well-formedness),Passed,00:00:00.0263875,5340,2
FileNames.LastFieldWhole (correctness),Passed,00:00:00.0263785,25494,2
PlaneRanges.AddStacks (well-formedness),Passed,00:00:00.0261327,32525,2
BeadPsf.LargestExtentIsMax (well-formedness),Passed,00:00:00.0261057,24375,2
Images.SqDistToPrefix (correctness),Passed,00:00:00.0260655,41487,2
BeadPsf.OneAbove (well-formedness),Passed,00:00:00.0260512,12718,2
BeadPsf.ThresholdBinaryIndicator (well-formedness),Passed,00:00:00.0259972,27251,2
DeconvolvePriv.DeconvolvePrivate.SetSnr (correctness),Passed,00:00:00.0259170,43956,2
SliceSpec.SplitWithout (correctness),Passed,00:00:00.0259056,41895,2
ExpandShape.BroadcastFits (correctness),Passed,00:00:00.0258658,41977,2
NdArray.PlaneWithin (correctness),Passed,00:00:00.0258100,49890,2
ExtractPsf.Cleared (well-formedness),Passed,00:00:00.0256691,43295,2
ExtractPsf.AverageOf (well-formedness),Passed,00:00:00.0256500,51144,2
FftwSettings.MakePlan (correctness),Passed,00:00:00.0256478,59361,2
Images.SqDistAppend (correctness),Passed,00:00:00.0256466,43743,2
PyStr.DigitsValue (well-formedness),Passed,00:00:00.0254525,19290,2
FftwSettings.ImageSettings.InversePlan (correctness),Passed,00:00:00.0254239,51159,2
FiniteDiff.ForwardRawTelescopes (well-formedness),Passed,00:00:00.0252644,21523,2
BeadPsf.ThresholdBinaryIndicator (correctness),Passed,00:00:00.0249719,26916,2
Noise.MinCountNonNegative (well-formedness),Passed,00:00:00.0249343,29079,2
PlaneRanges.StackSumAppend (well-formedness),Passed,00:00:00.0249017,34113,2
FileNames.KeptTiffs (well-formedness),Passed,00:00:00.0248722,51935,2
DeconvolvePriv.DeconvolvePrivate.ClearCallback (well-formedness),Passed,00:00:00.0247214,33950,2
Images.SoFarIsStats (correctness),Passed,00:00:00.0245760,48137,2
FftwSettings.PlanOutcome (well-formedness),Passed,00:00:00.0245152,43951,2
ReadXml.Bits (well-formedness),Passed,00:00:00.0244983,19385,2
ReadXml.BlockEnd (correctness),Passed,00:00:00.0244036,22102,2
FftwSettings.MakePlan (well-formedness),Passed,00:00:00.0243677,44165,2
PsfOtf.StoreAtSource (correctness),Passed,00:00:00.0243673,57313,2
PyStr.IsDigitGroup (well-formedness),Passed,00:00:00.0243547,21230,2
FftwSettings.ImageSettings.WithHandlers (correctness),Passed,00:00:00.0243447,43211,2
ExpandShape.GrowingAxisCopiesAll (correctness),Passed,00:00:00.0243395,80486,2
NdArray.SeqMax (well-formedness),Passed,00:00:00.0243260,37535,2
DeconvolvePriv.DeconvolvePrivate.SetCallback (well-formedness),Passed,00:00:00.0242926,37021,2
BeadPsf.AvBBoxSizeBetween (well-formedness),Passed,00:00:00.0242454,37428,2
PsfOtf.Psf.CacheHit (well-formedness),Passed,00:00:00.0241539,35895,2
ExtractPsf.Stats (well-formedness),Passed,00:00:00.0240002,35499,2
FiniteDiff.DifferencesTelescope (well-formedness),Passed,00:00:00.0238063,30443,2
PySlice.Len (well-formedness),Passed,00:00:00.0237969,21809,2
PlaneRanges.StackSumVoxel (well-formedness),Passed,00:00:00.0236190,39644,2
Images.PadCovers (well-formedness),Passed,00:00:00.0236047,24821,2
ReadXml.PsfShapeOf (well-formedness),Passed,00:00:00.0235983,33699,2
ExtractPsf.UniformMoments (well-formedness),Passed,00:00:00.0234857,36926,2
PyStr.ZFill (well-formedness),Passed,00:00:00.0234639,38214,2
DeconvolvePriv.DeconvolvePrivate.SetSnr (well-formedness),Passed,00:00:00.0234148,33584,2
Images.RealRowsFrame (well-formedness),Passed,00:00:00.0232898,30988,2
PlaneRanges.StackSum (well-formedness),Passed,00:00:00.0232791,34292,2
PsfOtf.InBoundsIff (well-formedness),Passed,00:00:00.0230375,14177,2
FileNames.PathJoinBasename (correctness),Passed,00:00:00.0228507,38275,2
PsfOtf.CentresCoincide (correctness),Passed,00:00:00.0228365,17882,2
FftwSettings.ImageSettings.Copy (correctness),Passed,00:00:00.0228298,39073,2
ExpandShape.EvenShrinkCentreCrops (well-formedness),Passed,00:00:00.0227499,24375,2
PlaneRanges.NoPlanesIff (correctness),Passed,00:00:00.0227457,36151,2
PyNum.SumScale (well-formedness),Passed,00:00:00.0227286,27297,2
ReadXml.Recentred (well-formedness),Passed,00:00:00.0226563,28653,2
PsfOtf.Normalised (well-formedness),Passed,00:00:00.0226183,25687,2
PsfOtf.Sample (well-formedness),Passed,00:00:00.0226056,16546,2
DeconvolvePriv.PushedKeepsNewest (correctness),Passed,00:00:00.0225406,18342,2
DeconvolvePriv.DeconvolvePrivate.ClearSnr (well-formedness),Passed,00:00:00.0225045,34122,2
DeconvolvePriv.DeconvolvePrivate.SetCallback (correctness),Passed,00:00:00.0223012,44183,2
Images.StatsOf (well-formedness),Passed,00:00:00.0222636,30985,2
PsfOtf.FractionInUnit (correctness),Passed,00:00:00.0222230,13127,2
PyStr.ParseUnsigned (well-formedness),Passed,00:00:00.0221856,37293,2
FftwSettings.ImageSettings.ClearPlan (correctness),Passed,00:00:00.0221361,43545,2
NdArray.Ravel (well-formedness),Passed,00:00:00.0221121,42973,2
ReadXml.BlockSize (well-formedness),Passed,00:00:00.0220456,17123,2
PyStr.ParseUnsignedDigits (well-formedness),Passed,00:00:00.0220381,30333,2
PySlice.SliceInRange (correctness),Passed,00:00:00.0220303,33530,2
PsfOtf.NegativeFractionPasses (well-formedness),Passed,00:00:00.0219427,15690,2
Images.Apply (well-formedness),Passed,00:00:00.0216222,12394,2
BeadPsf.ExtentsPrefix (well-formedness),Passed,00:00:00.0214297,32353,2
ReadXml.SameVolume (well-formedness),Passed,00:00:00.0214106,26597,2
PlaneRanges.PlaneIds (well-formedness),Passed,00:00:00.0213522,26687,2
BeadPsf.Extents (well-formedness),Passed,00:00:00.0211446,41167,2
Images.PadCovers (correctness),Passed,00:00:00.0209798,28362,2
FileNames.Tail (well-formedness),Passed,00:00:00.0209661,11711,2
BeadPsf.LargestBBoxCovers (well-formedness),Passed,00:00:00.0209583,29807,2
ExtractPsf.DistSq (well-formedness),Passed,00:00:00.0209476,16568,2
Images.Image.SameDims (well-formedness),Passed,00:00:00.0209441,10969,2
ExpandShape.OddShrinkMismatches (well-formedness),Passed,00:00:00.0209325,24050,2
BeadPsf.CropAxisFull (well-formedness),Passed,00:00:00.0209224,21251,2
BeadPsf.ThresholdKeepsOrZeroes (correctness),Passed,00:00:00.0208897,28037,2
ExtractPsf.Deviations (well-formedness),Passed,00:00:00.0208100,30534,2
NdArray.Max (well-formedness),Passed,00:00:00.0207943,30574,2
ReadXml.FixIndices (correctness),Passed,00:00:00.0207921,33283,2
Images.Pad (well-formedness),Passed,00:00:00.0207693,53651,2
PlaneRanges.ZeroMean (well-formedness),Passed,00:00:00.0207386,28415,2
PyStr.FirstField (well-formedness),Passed,00:00:00.0207164,35938,2
Images.RealRowsAt (well-formedness),Passed,00:00:00.0206949,32818,2
Images.SoFarIsStats (well-formedness),Passed,00:00:00.0206618,25219,2
BeadPsf.LargestBBoxCovers (correctness),Passed,00:00:00.0205412,65483,2
BeadPsf.ExactSizeAccepted (well-formedness),Passed,00:00:00.0204968,35469,2
PySlice.Hi (well-formedness),Passed,00:00:00.0204575,15059,2
Noise.CollapsedReBins (correctness),Passed,00:00:00.0204377,24207,2
PlaneRanges.NoPlanesIff (well-formedness),Passed,00:00:00.0204356,27396,2
Noise.Candidates (well-formedness),Passed,00:00:00.0204020,31487,2
ExtractPsf.Shifted (well-formedness),Passed,00:00:00.0202940,24857,2
Images.PadRowColumn (well-formedness),Passed,00:00:00.0202777,21873,2
PsfOtf.InBoundsIff (correctness),Passed,00:00:00.0201189,22730,2
PsfOtf.CoordsOfFlat (well-formedness),Passed,00:00:00.0200178,18563,2
DeconvolvePriv.PushedKeepsNewest (well-formedness),Passed,00:00:00.0200112,16728,2
NdArray.RavelWithin (well-formedness),Passed,00:00:00.0199551,32514,2
Noise.CountAll (correctness),Passed,00:00:00.0199079,20186,2
Noise.Min (well-formedness),Passed,00:00:00.0198465,23701,2
BeadPsf.MeanExtent (well-formedness),Passed,00:00:00.0198243,32339,2
DeconvolvePriv.DeclineIsStrict (correctness),Passed,00:00:00.0198189,30142,2
BeadPsf.LargestExtent (well-formedness),Passed,00:00:00.0197034,19614,2
ReadXml.AxisWindow (well-formedness),Passed,00:00:00.0196473,25098,2
NdArray.RavelRows (well-formedness),Passed,00:00:00.0195649,36446,2
FiniteDiff.NextAt (well-formedness),Passed,00:00:00.0194840,28265,2
NdArray.VoxelsWithin (well-formedness),Passed,00:00:00.0194780,24872,2
ExtractPsf.Zeros (well-formedness),Passed,00:00:00.0193959,31022,2
ReadXml.ExpandHigh (correctness),Passed,00:00:00.0192964,49702,2
ExpandShape.SeqMin (well-formedness),Passed,00:00:00.0192953,36258,2
FiniteDiff.ZeroOver (correctness),Passed,00:00:00.0192653,4162,2
ReadXml.FieldHalf (well-formedness),Passed,00:00:00.0192331,4543,2
ExtractPsf.NothingSelected (correctness),Passed,00:00:00.0192031,25564,2
PyNum.RoundHalfEven (well-formedness),Passed,00:00:00.0190973,21625,2
Images.Image.Compatible (well-formedness),Passed,00:00:00.0190937,25414,2
FftwSettings.ImageSettings._ctor (correctness),Passed,00:00:00.0190563,33230,2
PlaneRanges.PyRangeUnitStep (correctness),Passed,00:00:00.0189466,37495,2
FiniteDiff.PrevAt (well-formedness),Passed,00:00:00.0189241,29621,2
PyNum.SumZeroAllZero (correctness),Passed,00:00:00.0188743,22249,2
FiniteDiff.NormalisedComponentBounded (correctness),Passed,00:00:00.0187972,32112,2
FileNames.FirstFieldWhole (correctness),Passed,00:00:00.0187812,22472,2
BeadPsf.AxisAccepted (well-formedness),Passed,00:00:00.0186271,5837,2
ReadXml.BinnedShape (well-formedness),Passed,00:00:00.0186160,22236,2
PsfOtf.CoordsOfFlat (correctness),Passed,00:00:00.0185710,27277,2
LambdaCallback.TiesStopOnlyHere (correctness),Passed,00:00:00.0185552,25839,2
Images.SqDistZeroIff (correctness),Passed,00:00:00.0185238,21574,2
FiniteDiff.Subtracted (well-formedness),Passed,00:00:00.0185010,12269,2
PyStr.DigitsNotWhitespace (correctness),Passed,00:00:00.0184319,23890,2
ReadXml.Fitting (well-formedness),Passed,00:00:00.0182766,28281,2
PyStr.StripNothing (correctness),Passed,00:00:00.0182618,25949,2
Noise.PhotonCount (well-formedness),Passed,00:00:00.0182401,20020,2
PsfOtf.NewHandlersForceRecompute (correctness),Passed,00:00:00.0181811,27133,2
PlaneRanges.CreatePlanesTiffOldNeverWrites (well-formedness),Passed,00:00:00.0181231,28941,2
ReadXml.FittingPrefix (well-formedness),Passed,00:00:00.0180945,27135,2
Noise.PhotonValue (well-formedness),Passed,00:00:00.0180680,13095,2
Noise.CountWithin (correctness),Passed,00:00:00.0180254,15622,2
FileNames.Names (well-formedness),Passed,00:00:00.0179564,36201,2
PyNum.SumAppend (correctness),Passed,00:00:00.0179196,21118,2
PsfOtf.NewHandlersForceRecompute (well-formedness),Passed,00:00:00.0178408,27007,2
BeadPsf.ZeroToleranceRejectsBox (correctness),Passed,00:00:00.0178077,22714,2
ExtractPsf.AddVec (well-formedness),Passed,00:00:00.0177844,34128,2
PyStr.Basename (well-formedness),Passed,00:00:00.0175517,27611,2
PlaneRanges.ZeroStack (well-formedness),Passed,00:00:00.0174934,30968,2
Noise.UnitGainCounts (correctness),Passed,00:00:00.0173854,15455,2
PsfOtf.StoreAtSource (well-formedness),Passed,00:00:00.0173659,26164,2
ExtractPsf.Roll (well-formedness),Passed,00:00:00.0171525,28078,2
Images.IsStats (well-formedness),Passed,00:00:00.0171347,28136,2
PyStr.ZerosValue (correctness),Passed,00:00:00.0171103,22342,2
PyNum.ModUnique (correctness),Passed,00:00:00.0170755,18243,2
Noise.Max (well-formedness),Passed,00:00:00.0169373,23679,2
LambdaCallback.TieIsTheOnlyDifference (well-formedness),Passed,00:00:00.0169316,21181,2
ExtractPsf.Normalised (well-formedness),Passed,00:00:00.0168605,25542,2
ExtractPsf.RollPermutes (well-formedness),Passed,00:00:00.0167872,23993,2
DeconvolvePriv.DeconvolvePrivate.SetRegularization (well-formedness),Passed,00:00:00.0166925,33584,2
PyStr.DigitsValueLeadingZeros (well-formedness),Passed,00:00:00.0166576,18388,2
ExtractPsf.NormalisedPeak (well-formedness),Passed,00:00:00.0166320,32502,2
PsfOtf.MulNonNegative (correctness),Passed,00:00:00.0164905,3740,2
ReadXml.PsfShapeCovers (well-formedness),Passed,00:00:00.0164319,22147,2
FftwSettings.ImageSettings.ClearPlan (well-formedness),Passed,00:00:00.0164105,34503,2
FiniteDiff.Added (well-formedness),Passed,00:00:00.0163412,9950,2
FileNames.SplitExtRootOf (well-formedness),Passed,00:00:00.0163218,23570,2
FileNames.FolderSpelling (well-formedness),Passed,00:00:00.0162858,21515,2
PsfOtf.PsfAt (well-formedness),Passed,00:00:00.0162658,35140,2
ExtractPsf.Clip (well-formedness),Passed,00:00:00.0162401,5362,2
PyStr.DigitChar (well-formedness),Passed,00:00:00.0162083,9957,2
Images.RowBelow (correctness),Passed,00:00:00.0162008,10074,2
Images.MinModSymmetric (correctness),Passed,00:00:00.0161810,8849,2
ExtractPsf.DivBelow (correctness),Passed,00:00:00.0160766,3965,2
Images.StatsSoFar (well-formedness),Passed,00:00:00.0160030,21273,2
ReadXml.PrefixSumStep (correctness),Passed,00:00:00.0158248,13154,2
PlaneRanges.PlaneIdsOld (well-formedness),Passed,00:00:00.0158054,26299,2
ReadXml.CentreDistSq (well-formedness),Passed,00:00:00.0157616,18158,2
BeadPsf.LargestExtentStep (correctness),Passed,00:00:00.0156671,24483,2
PyStr.Zeros (well-formedness),Passed,00:00:00.0156585,29719,2
PyStr.ZerosValue (well-formedness),Passed,00:00:00.0156054,14826,2
Noise.Bar (well-formedness),Passed,00:00:00.0154184,16839,2
Noise.MinMaxAttained (well-formedness),Passed,00:00:00.0153830,12696,2
ExpandShape.GrowingAxisCopiesAll (well-formedness),Passed,00:00:00.0152954,23703,2
FftwSettings.ClearOutcome (well-formedness),Passed,00:00:00.0152567,20602,2
ExtractPsf.RollRotates (well-formedness),Passed,00:00:00.0152132,24078,2
Noise.CountTotal (well-formedness),Passed,00:00:00.0151997,14620,2
FftwSettings.ImageSettings.WithHandlers (well-formedness),Passed,00:00:00.0150894,29042,2
ExtractPsf.Selected (well-formedness),Passed,00:00:00.0150832,24950,2
BeadPsf.ThresholdKeepsOrZeroes (well-formedness),Passed,00:00:00.0149931,21911,2
SliceSpec.SliceOf (well-formedness),Passed,00:00:00.0149784,31507,2
LambdaCallback.TiesStopOnlyHere (well-formedness),Passed,00:00:00.0149636,19714,2
Noise.PhotonValueMonotone (well-formedness),Passed,00:00:00.0148964,9231,2
FftwSettings.InitIdempotent (well-formedness),Passed,00:00:00.0148911,11452,2
Images.SqDist (well-formedness),Passed,00:00:00.0148468,10467,2
PyStr.JoinLastShorter (correctness),Passed,00:00:00.0147489,24400,2
LambdaCallback.FourthValueNeeded (well-formedness),Passed,00:00:00.0147488,19515,2
ExtractPsf.GridDistSq (well-formedness),Passed,00:00:00.0147365,9959,2
LambdaCallback.FourthValueNeeded (correctness),Passed,00:00:00.0146763,19474,2
PyNum.RoundHalfEvenUnique (correctness),Passed,00:00:00.0145779,24237,2
PsfOtf.FlatIndexInLine (well-formedness),Passed,00:00:00.0145653,13775,2
DeconvolvePriv.OnlyCapStopsEarly (correctness),Passed,00:00:00.0143170,9546,2
FftwSettings.FftwState.Init (well-formedness),Passed,00:00:00.0142495,16475,2
LambdaCallback.CapIsOneLater (well-formedness),Passed,00:00:00.0142061,14417,2
PsfOtf.NormaliseInPlace (well-formedness),Passed,00:00:00.0140637,28568,2
PlaneRanges.PyRangeUnitStep (well-formedness),Passed,00:00:00.0140256,15674,2
NdArray.RavelPlane (well-formedness),Passed,00:00:00.0140156,21449,2
PsfOtf.FlatIndex (well-formedness),Passed,00:00:00.0139463,19495,2
Images.Image.Allocated (well-formedness),Passed,00:00:00.0139448,8035,2
DeconvolveApi.ScaledNonZero (correctness),Passed,00:00:00.0138025,10193,2
Images.SqDistAppend (well-formedness),Passed,00:00:00.0137946,12503,2
PsfOtf.Rank (well-formedness),Passed,00:00:00.0137724,24222,2
BeadPsf.RelativeCut (well-formedness),Passed,00:00:00.0137466,10859,2
NdArray.HasShape (well-formedness),Passed,00:00:00.0137348,18401,2
ExtractPsf.AcceptedLabels (well-formedness),Passed,00:00:00.0137209,23808,2
BeadPsf.LargestExtentStep (well-formedness),Passed,00:00:00.0136972,19694,2
PyNum.SumZeroAllZero (well-formedness),Passed,00:00:00.0136205,12065,2
PsfOtf.StoreAt (well-formedness),Passed,00:00:00.0135429,21046,2
Noise.PhotonValueMonotone (correctness),Passed,00:00:00.0135406,19496,2
FiniteDiff.QuotientBounded (correctness),Passed,00:00:00.0135165,13849,2
PsfOtf.LineBaseNext (correctness),Passed,00:00:00.0134432,18380,2
Noise.CountAbove (correctness),Passed,00:00:00.0134369,22221,2
PyStr.FirstFieldSplit (well-formedness),Passed,00:00:00.0134182,21494,2
ReadXml.Clamp (well-formedness),Passed,00:00:00.0134039,11620,2
Noise.CollapsedReBins (well-formedness),Passed,00:00:00.0133602,13908,2
Images.Row (well-formedness),Passed,00:00:00.0132503,26853,2
ExtractPsf.SupersampledVolume (well-formedness),Passed,00:00:00.0132373,22158,2
DeconvolvePriv.Outcome (well-formedness),Passed,00:00:00.0131564,20589,2
PyNum.Sum (well-formedness),Passed,00:00:00.0129280,9664,2
ExtractPsf.AtMostOne (well-formedness),Passed,00:00:00.0128644,15717,2
PyNum.SumNonNegative (correctness),Passed,00:00:00.0128627,14032,2
PsfOtf.TruncInBounds (correctness),Passed,00:00:00.0128448,13017,2
Noise.ShareAdd (well-formedness),Passed,00:00:00.0128344,6423,2
PyStr.Join (well-formedness),Passed,00:00:00.0128108,15022,2
Images.SqDistToZeroIff (well-formedness),Passed,00:00:00.0128006,13399,2
ExtractPsf.CountTrue (well-formedness),Passed,00:00:00.0127643,17284,2
PsfOtf.CentreToOrigin (correctness),Passed,00:00:00.0126663,11370,2
PsfOtf.FlatIndexInLine (correctness),Passed,00:00:00.0126571,20113,2
ReadXml.RoundHalfAway (well-formedness),Passed,00:00:00.0125435,20700,2
PsfOtf.LineBaseNext (well-formedness),Passed,00:00:00.0124286,12367,2
FiniteDiff.Ends (well-formedness),Passed,00:00:00.0122867,7367,2
Noise.CountAbove (well-formedness),Passed,00:00:00.0122539,9620,2
ExtractPsf.CountAtLeast (well-formedness),Passed,00:00:00.0122397,17165,2
ReadXml.FixedIndices (well-formedness),Passed,00:00:00.0122283,17528,2
DeconvolvePriv.Distance (well-formedness),Passed,00:00:00.0122159,13945,2
FftwSettings.FftwState.Init (correctness),Passed,00:00:00.0121956,20837,2
BeadPsf.AllShaped (well-formedness),Passed,00:00:00.0121748,18850,2
PyStr.StripNothing (well-formedness),Passed,00:00:00.0120968,17619,2
PyStr.AllDigits (well-formedness),Passed,00:00:00.0120408,10950,2
Images.LastDim (well-formedness),Passed,00:00:00.0120234,12308,2
ExtractPsf.FieldPositive (correctness),Passed,00:00:00.0120141,19268,2
ExtractPsf.Sized (well-formedness),Passed,00:00:00.0120037,13334,2
Images.Image.SameSettings (well-formedness),Passed,00:00:00.0119871,17556,2
PyNum.MaxInt (well-formedness),Passed,00:00:00.0119221,5382,2
Images.SameVoxelNotTransitive (correctness),Passed,00:00:00.0118675,15227,2
Images.SqDistZeroIff (well-formedness),Passed,00:00:00.0118537,11015,2
Noise.Mass (well-formedness),Passed,00:00:00.0118409,7129,2
PsfOtf.VolumePositive (correctness),Passed,00:00:00.0118370,14302,2
ReadXml.RoundingDiffers (correctness),Passed,00:00:00.0118206,12812,2
LambdaCallback.DefaultDeclineStopsTest (correctness),Passed,00:00:00.0117385,20693,2
BeadPsf.OddUp (well-formedness),Passed,00:00:00.0117347,11749,2
ExtractPsf.NothingSelected (well-formedness),Passed,00:00:00.0117280,16868,2
PyNum.MinInt (well-formedness),Passed,00:00:00.0117063,5382,2
ReadXml.FixIndicesCanCross (correctness),Passed,00:00:00.0117048,14110,2
PsfOtf.ShiftBijection (well-formedness),Passed,00:00:00.0116815,9101,2
Images.MinMod (well-formedness),Passed,00:00:00.0116722,18624,2
PyNum.SumZeroOfZeros (well-formedness),Passed,00:00:00.0116436,9130,2
FiniteDiff.ZeroOver (well-formedness),Passed,00:00:00.0116159,3551,2
Noise.ShareWhole (correctness),Passed,00:00:00.0116039,8149,2
PySlice.Index (well-formedness),Passed,00:00:00.0116013,15936,2
PyNum.Ceil (well-formedness),Passed,00:00:00.0115633,5210,2
Images.Nrm2IsSquared (well-formedness),Passed,00:00:00.0115324,9618,2
ReadXml.BlurStep (well-formedness),Passed,00:00:00.0114199,13769,2
LambdaCallback.DefaultDeclineStopsTest (well-formedness),Passed,00:00:00.0113768,14072,2
Images.SqDistTo (well-formedness),Passed,00:00:00.0111444,12002,2
PyNum.SumZeroOfZeros (correctness),Passed,00:00:00.0111214,13367,2
BeadPsf.Footprint (well-formedness),Passed,00:00:00.0110774,10427,2
ExtractPsf.ConstantSum (correctness),Passed,00:00:00.0110326,13465,2
Noise.Count (well-formedness),Passed,00:00:00.0110018,21076,2
PsfOtf.GetInd (well-formedness),Passed,00:00:00.0109965,10732,2
PyNum.Abs (well-formedness),Passed,00:00:00.0109549,6077,2
Noise.LastBinCounts (correctness),Passed,00:00:00.0109240,19540,2
PsfOtf.DivBelow (correctness),Passed,00:00:00.0108889,12653,2
FftwSettings.InitOutcome (well-formedness),Passed,00:00:00.0108487,15056,2
Noise.Rounded (well-formedness),Passed,00:00:00.0108399,7347,2
DeconvolveApi.Deconvolve.MaxIterations (well-formedness),Passed,00:00:00.0106908,9602,2
Noise.ShareWhole (well-formedness),Passed,00:00:00.0106751,4988,2
PsfOtf.Accumulate (well-formedness),Passed,00:00:00.0106697,15846,2
ReadXml.OddMax (well-formedness),Passed,00:00:00.0106692,11301,2
PyNum.ModUnique (well-formedness),Passed,00:00:00.0106643,5105,2
ReadXml.PrefixSumStep (well-formedness),Passed,00:00:00.0105544,9321,2
Noise.PoissonGain (well-formedness),Passed,00:00:00.0105324,14939,2
Noise.RoundMonotone (correctness),Passed,00:00:00.0104737,15434,2
PyNum.SumNonNegative (well-formedness),Passed,00:00:00.0104141,9130,2
FftwSettings.InitIdempotent (correctness),Passed,00:00:00.0103889,10252,2
PyNum.Trunc (well-formedness),Passed,00:00:00.0103835,9675,2
Noise.CountAll (well-formedness),Passed,00:00:00.0103305,9875,2
Images.SqDistConcat (well-formedness),Passed,00:00:00.0103140,12794,2
Noise.CountWithin (well-formedness),Passed,00:00:00.0102922,10040,2
LambdaCallback.LambdaLog._ctor (correctness),Passed,00:00:00.0102442,11914,2
Noise.HalfShareTwice (correctness),Passed,00:00:00.0102428,7217,2
PyStr.DigitsNotWhitespace (well-formedness),Passed,00:00:00.0102086,16481,2
BeadPsf.IsOdd (well-formedness),Passed,00:00:00.0101620,4325,2
PsfOtf.Psf.IsSet (well-formedness),Passed,00:00:00.0101231,9658,2
BeadPsf.ReprWithoutFilter (well-formedness),Passed,00:00:00.0100659,11075,2
PsfOtf.Unshift (well-formedness),Passed,00:00:00.0100099,8910,2
DeconvolveApi.Deconvolve.MaxIterations (correctness),Passed,00:00:00.0099646,8744,2
BeadPsf.CropRange (well-formedness),Passed,00:00:00.0098648,12688,2
FftwSettings.ImageSettings.SameShared (well-formedness),Passed,00:00:00.0098152,12337,2
DeconvolveApi.CancelFactor (correctness),Passed,00:00:00.0097634,7032,2
DeconvolveApi.Deconvolve.Regularized (well-formedness),Passed,00:00:00.0097197,8824,2
Images.RowBelow (well-formedness),Passed,00:00:00.0096100,4269,2
Noise.TwoReBins (well-formedness),Passed,00:00:00.0096061,14588,2
ExtractPsf.DivSelf (correctness),Passed,00:00:00.0095160,3937,2
LambdaCallback.Min3 (well-formedness),Passed,00:00:00.0094648,8156,2
Images.Rows (well-formedness),Passed,00:00:00.0094343,7009,2
ExtractPsf.OddHalf (correctness),Passed,00:00:00.0094150,5914,2
ReadXml.MeanWithin (well-formedness),Passed,00:00:00.0093883,11696,2
FileNames.PathJoin (well-formedness),Passed,00:00:00.0093572,10029,2
ExtractPsf.SupersampledExtent (correctness),Passed,00:00:00.0093252,14463,2
Images.SqDistToPrefix (well-formedness),Passed,00:00:00.0093208,12978,2
LambdaCallback.NotAboveLastThree (well-formedness),Passed,00:00:00.0093062,10030,2
Noise.UnitGainCounts (well-formedness),Passed,00:00:00.0092932,8773,2
FiniteDiff.MinReal (well-formedness),Passed,00:00:00.0092863,5382,2
Noise.LastBinCounts (well-formedness),Passed,00:00:00.0092223,9451,2
ExtractPsf.DropAll (correctness),Passed,00:00:00.0091249,9759,2
ReadXml.Origin (well-formedness),Passed,00:00:00.0091136,9310,2
PyNum.SumBounds (well-formedness),Passed,00:00:00.0090606,9544,2
FftwSettings.ImageSettings.Same (well-formedness),Passed,00:00:00.0090451,8375,2
ReadXml.LateralResolution (well-formedness),Passed,00:00:00.0090268,5314,2
FftwSettings.NewHandlersInvalidate (well-formedness),Passed,00:00:00.0089339,9637,2
LambdaCallback.CapIsOneLater (correctness),Passed,00:00:00.0089336,14314,2
ExtractPsf.Mean (well-formedness),Passed,00:00:00.0089302,9401,2
Noise.ReBin (well-formedness),Passed,00:00:00.0088847,6880,2
PlaneRanges.AllSized (well-formedness),Passed,00:00:00.0088608,8040,2
Noise.ShareAdd (correctness),Passed,00:00:00.0088380,9624,2
DeconvolveApi.Deconvolve.Regularized (correctness),Passed,00:00:00.0087754,8012,2
PyNum.MulAtLeast (correctness),Passed,00:00:00.0087720,4035,2
DeconvolvePriv.DeclineIsStrict (well-formedness),Passed,00:00:00.0087695,13779,2
FftwSettings.ImageSettings.Copy (well-formedness),Passed,00:00:00.0087568,12617,2
ExtractPsf.ConstantSum (well-formedness),Passed,00:00:00.0087312,9002,2
Noise.TruncStep (correctness),Passed,00:00:00.0087262,6388,2
PsfOtf.LineBase (well-formedness),Passed,00:00:00.0086212,8823,2
ExtractPsf.DualParabola (well-formedness),Passed,00:00:00.0086127,6727,2
DeconvolvePriv.LambdaStackSize (well-formedness),Passed,00:00:00.0086095,3754,2
ExtractPsf.DualParabolaMirror (correctness),Passed,00:00:00.0085882,6445,2
PsfOtf.CentreToOrigin (well-formedness),Passed,00:00:00.0085140,7467,2
BeadPsf.ReprWithoutFilter (correctness),Passed,00:00:00.0084732,11326,2
Noise.DivAddOne (correctness),Passed,00:00:00.0084522,7202,2
DeconvolvePriv.DefaultMaxIterations (well-formedness),Passed,00:00:00.0083906,3754,2
PyNum.SumSingle (correctness),Passed,00:00:00.0083893,8765,2
Noise.DivBelowOne (correctness),Passed,00:00:00.0083501,4790,2
FftwSettings.FftwState._ctor (correctness),Passed,00:00:00.0083499,7665,2
PyStr.JoinLastShorter (well-formedness),Passed,00:00:00.0082415,12209,2
FiniteDiff.Sign (well-formedness),Passed,00:00:00.0081391,5996,2
PsfOtf.DivBelow (well-formedness),Passed,00:00:00.0081170,4268,2
ReadXml.FixSteps (well-formedness),Passed,00:00:00.0079932,11099,2
Noise.DivBelowOne (well-formedness),Passed,00:00:00.0079543,4433,2
ReadXml.BlockEnd (well-formedness),Passed,00:00:00.0078729,4427,2
SliceSpec.NoBrackets (well-formedness),Passed,00:00:00.0078209,11049,2
FiniteDiff.SquareGrows (correctness),Passed,00:00:00.0077055,6706,2
ExtractPsf.OddForm (correctness),Passed,00:00:00.0077000,6291,2
BeadPsf.DivBetween (correctness),Passed,00:00:00.0076884,4316,2
PyStr.EndsWith (well-formedness),Passed,00:00:00.0076778,8237,2
PyNum.RoundHalfEvenUnique (well-formedness),Passed,00:00:00.0074678,7129,2
ExtractPsf.InPx (well-formedness),Passed,00:00:00.0074607,4685,2
FiniteDiff.QuotientBounded (well-formedness),Passed,00:00:00.0073919,4223,2
FiniteDiff.SquareNonNegative (correctness),Passed,00:00:00.0072964,3946,2
ExtractPsf.DropAll (well-formedness),Passed,00:00:00.0072937,5686,2
BeadPsf.DivBetween (well-formedness),Passed,00:00:00.0072095,4021,2
FftwSettings.NewHandlersInvalidate (correctness),Passed,00:00:00.0071780,8903,2
Noise.Share (well-formedness),Passed,00:00:00.0071621,4686,2
PsfOtf.Shift (well-formedness),Passed,00:00:00.0071311,8124,2
ExtractPsf.DivBelow (well-formedness),Passed,00:00:00.0071034,3752,2
FiniteDiff.ScaleGrows (correctness),Passed,00:00:00.0070018,3682,2
PsfOtf.CentresCoincide (well-formedness),Passed,00:00:00.0069422,7478,2
Noise.DivAddOne (well-formedness),Passed,00:00:00.0068786,3282,2
Noise.HalfShareTwice (well-formedness),Passed,00:00:00.0068315,5830,2
ExtractPsf.PositiveProduct (correctness),Passed,00:00:00.0068200,4529,2
PyNum.SqZero (correctness),Passed,00:00:00.0068142,5132,2
PyNum.DivBack (well-formedness),Passed,00:00:00.0068064,3064,2
NdArray.Volume (well-formedness),Passed,00:00:00.0067517,8357,2
PyNum.DivBack (correctness),Passed,00:00:00.0066931,3300,2
PlaneRanges.MulSucc (correctness),Passed,00:00:00.0064819,3212,2
ReadXml.Shift (well-formedness),Passed,00:00:00.0061840,4349,2
FiniteDiff.SafeQuotient (well-formedness),Passed,00:00:00.0061257,4680,2
Noise.HalfShare (well-formedness),Passed,00:00:00.0059647,4724,2
PsfOtf.MulMono (correctness),Passed,00:00:00.0057987,4204,2
DeconvolveApi.CancelFactor (well-formedness),Passed,00:00:00.0057767,3451,2
ExtractPsf.Drop (well-formedness),Passed,00:00:00.0056987,4781,2
LambdaCallback.LastIteration (well-formedness),Passed,00:00:00.0056525,3753,2
ExtractPsf.DivSelf (well-formedness),Passed,00:00:00.0050171,3551,2
